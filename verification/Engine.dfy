/**
  The backtest engine (src/backtest/engine.py) as a class over a simulated broker. Every method changes the book and
  the broker exactly as the function of the same name in `Backtest` says; a raised exception is the out-parameter
  `raised`, and the state is then the one the exception leaves behind.
*/
module Engine {
  import opened Wrappers
  import opened Decimals
  import opened Dicts
  import opened Enums
  import opened MarketData
  import opened ExitRules
  import opened Simulator
  import opened Backtest

  lemma UnrealizedStep(loader: Loader, day: Day, keys: seq<Symbol>, vals: map<Symbol, PositionRecord>, i: nat)
    requires i < |keys| && forall k :: k in keys ==> k in vals
    ensures Unrealized(loader, day, keys[i..], vals) == ProfitAt(loader, day, vals[keys[i]])
            + Unrealized(loader, day, keys[i + 1..], vals)
  {
    assert keys[i..][0] == keys[i] && keys[i..][1..] == keys[i + 1..];
  }

  class BacktestEngine {
    const broker: SimulatedBroker
    const settings: Settings
    const oracle: Oracle

    var positions: Dict<Symbol, PositionRecord>
    var closedPositions: seq<PositionRecord>
    var snapshots: seq<Snapshot>
    var trades: seq<TradeRecord>
    var pendingSignals: seq<Signal>
    var highestPrices: map<Symbol, real>
    var positionIdCounter: nat
    var snapshotIdCounter: nat
    var peakValue: real
    var dailyTradeCount: nat
    var dailyRealizedPnl: real

    function Ledger(): Book
      reads this
    {
      Book(positions, closedPositions, snapshots, trades, pendingSignals, highestPrices, positionIdCounter,
                snapshotIdCounter, peakValue, dailyTradeCount, dailyRealizedPnl)
    }

    function State(): Sim
      reads this, broker
    {
      Sim(Ledger(), broker.State())
    }

    function EnvOf(config: Config): Env {
      Env(broker.loader, broker.costs, settings, config, oracle)
    }

    constructor (broker: SimulatedBroker, settings: Settings, oracle: Oracle)
      ensures this.broker == broker && this.settings == settings && this.oracle == oracle
      ensures Ledger() == FreshBook(0.0)
    {
      this.broker, this.settings, this.oracle := broker, settings, oracle;
      positions, closedPositions, snapshots, trades, pendingSignals := Empty(), [], [], [], [];
      highestPrices, positionIdCounter, snapshotIdCounter := map[], 0, 0;
      peakValue, dailyTradeCount, dailyRealizedPnl := 0.0, 0, 0.0;
    }

    /** The broker is not reset: a run starts from whatever account the last one left. */
    method ResetState()
      modifies this
      ensures Ledger() == FreshBook(0.0)
    {
      positions, closedPositions, snapshots, trades, pendingSignals, highestPrices := Empty(), [], [], [], [], map[];
      positionIdCounter, snapshotIdCounter, peakValue, dailyTradeCount, dailyRealizedPnl := 0, 0, 0.0, 0, 0.0;
    }

    method ExecuteExit(sym: Symbol, day: Day, tag: ExitTag, config: Config) returns (raised: bool)
      modifies this, broker
      ensures Step(State(), raised) == Backtest.ExecuteExit(EnvOf(config), old(State()), sym, day, tag)
    {
      if sym !in positions.vals {
        return false;
      }
      var pos := positions.vals[sym];
      var close := GetClose(broker.loader, sym, day);
      if close.None? {
        return false;
      }
      var result := broker.PlaceOrder(ExitOrder(pos, sym, close.value));
      if result.Failure? {
        return true;
      }
      var commission := result.value.commission;
      MoveToClosed(sym, close.value, day, tag, commission);
      if tag == BacktestEnd {
        return true;
      }
      trades := trades + [ExitTrade(pos, sym, close.value, day, tag.reason, commission)];
      return false;
    }

    method MoveToClosed(sym: Symbol, close: real, day: Day, tag: ExitTag, commission: real)
      requires sym in positions.vals
      modifies this
      ensures Ledger() == BookClosed(old(Ledger()), sym, close, day, tag, commission)
    {
      var pos := positions.vals[sym];
      var realizedPnl := Amount(close - pos.avgCost, pos.quantity) - commission;
      var left := Remove(positions, sym);
      closedPositions, positions, highestPrices, dailyRealizedPnl, dailyTradeCount :=
        closedPositions + [CloseRecord(pos, close, day, tag, realizedPnl)], left, highestPrices - {sym},
        dailyRealizedPnl + realizedPnl, dailyTradeCount + 1;
    }

    /** The exits are collected in a first pass over the positions and executed in a second. */
    method CheckExits(day: Day, config: Config) returns (raised: bool)
      modifies this, broker
      ensures Step(State(), raised) == Backtest.CheckExits(EnvOf(config), old(State()), day)
    {
      var exits: seq<(Symbol, ExitReason)>;
      raised, exits := CollectExits(day, config);
      if raised {
        return true;
      }
      label Collected:
      for i := 0 to |exits|
        invariant ExecuteExits(EnvOf(config), State(), exits[i..], day)
               == ExecuteExits(EnvOf(config), old@Collected(State()), exits, day)
      {
        raised := ExecuteExit(exits[i].0, day, Because(exits[i].1), config);
        assert exits[i..][1..] == exits[i + 1..];
        if raised {
          return true;
        }
      }
      return false;
    }

    method CollectExits(day: Day, config: Config) returns (raised: bool, exits: seq<(Symbol, ExitReason)>)
      modifies this`highestPrices
      ensures Scan(highestPrices, exits, raised) == ScanBook(EnvOf(config), day, old(Ledger()))
    {
      raised, exits := false, [];
      ghost var env := EnvOf(config);
      var keys := positions.keys;
      for i := 0 to |keys|
        invariant ScanAll(env, day, keys[i..], positions.vals, Scan(highestPrices, exits, false))
               == ScanBook(env, day, old(Ledger()))
      {
        var symbol := keys[i];
        assert keys[i..][0] == symbol && keys[i..][1..] == keys[i + 1..];
        var pos := positions.vals[symbol];
        var close := GetClose(broker.loader, symbol, day);
        if close.Some? {
          if pos.entryPrice == 0.0 {
            return true, exits;
          }
          var high := NewHigh(highestPrices, symbol, pos, close.value);
          highestPrices := highestPrices[symbol := high];
          var decision := ExitDecision(pos, close.value, high, day);
          if decision.Failure? {
            return true, exits;
          }
          if decision.value.Some? {
            exits := exits + [(symbol, decision.value.value)];
          }
        }
      }
    }

    method ExecutePendingSignals(day: Day, config: Config)
      modifies this, broker
      ensures State() == ExecutePending(EnvOf(config), old(State()), day)
    {
      var signals := pendingSignals;
      pendingSignals := [];
      for i := 0 to |signals|
        invariant EnterAll(EnvOf(config), State(), signals[i..], day)
          == ExecutePending(EnvOf(config), old(State()), day)
      {
        assert signals[i..][0] == signals[i] && signals[i..][1..] == signals[i + 1..];
        EnterPosition(signals[i], day, config);
      }
    }

    method EnterPosition(signal: Signal, day: Day, config: Config)
      modifies this, broker
      ensures State() == Enter(EnvOf(config), old(State()), signal, day)
    {
      var symbol := signal.symbol;
      if signal.action != SignalAction.Buy || symbol in positions.vals {
        return;
      }
      var open := GetOpen(broker.loader, symbol, day);
      if open.None? {
        return;
      }
      var adjusted := RiskCheck(EnvOf(config), State(), symbol, signal.quantity, open.value);
      if adjusted.None? {
        return;
      }
      var quantity := adjusted.value;
      var result := broker.PlaceOrder(EntryOrder(symbol, quantity));
      if result.Failure? {
        return;
      }
      OpenPosition(signal, quantity, result.value.filledPrice, open.value, result.value.commission, day, config);
    }

    method OpenPosition(signal: Signal, quantity: Shares, filled: real, open: real, commission: real, day: Day,
                        config: Config)
      modifies this
      ensures Ledger() == BookEntered(EnvOf(config), old(Ledger()), signal, quantity, filled, open, commission, day)
    {
      var symbol := signal.symbol;
      var fillPrice := EntryPrice(filled, open);
      var record := EntryRecord(EnvOf(config), Ledger(), signal, quantity, fillPrice, day);
      var entered := Put(positions, symbol, record);
      positionIdCounter, positions, highestPrices, dailyTradeCount, trades :=
        positionIdCounter + 1, entered, highestPrices[symbol := fillPrice], dailyTradeCount + 1,
        trades + [EntryTrade(symbol, quantity, fillPrice, open, commission, day)];
    }

    /** One proposal per symbol that is neither held nor pending. */
    method GenerateSignals(day: Day, config: Config)
      modifies this`pendingSignals
      ensures State() == Backtest.GenerateSignals(EnvOf(config), old(State()), day)
    {
      ghost var env := EnvOf(config);
      var totalValue := broker.GetTotalValue();
      for i := 0 to |config.symbols|
        invariant GenerateAll(env, Ledger(), config.symbols[i..], day, totalValue)
               == GenerateAll(env, old(Ledger()), config.symbols, day, totalValue)
      {
        var symbol := config.symbols[i];
        assert config.symbols[i..][1..] == config.symbols[i + 1..];
        if symbol !in positions.vals && !IsPending(pendingSignals, symbol) {
          var proposal := Propose(EnvOf(config), symbol, day, totalValue);
          if proposal.Some? {
            pendingSignals := pendingSignals + [proposal.value];
          }
        }
      }
    }

    method UnrealizedPnl(day: Day) returns (total: real)
      ensures total == Unrealized(broker.loader, day, positions.keys, positions.vals)
    {
      total := 0.0;
      var keys := positions.keys;
      for i := 0 to |keys|
        invariant total + Unrealized(broker.loader, day, keys[i..], positions.vals)
               == Unrealized(broker.loader, day, keys, positions.vals)
      {
        var pos := positions.vals[keys[i]];
        UnrealizedStep(broker.loader, day, keys, positions.vals, i);
        var close := GetClose(broker.loader, pos.symbol, day);
        if close.Some? {
          total := total + Amount(close.value - pos.avgCost, pos.quantity);
        }
      }
    }

    method RecordSnapshot(day: Day, config: Config)
      modifies this
      ensures State() == Backtest.RecordSnapshot(EnvOf(config), old(State()), day)
    {
      var totalValue := broker.GetTotalValue();
      var cash := broker.cash;
      var unrealizedPnl := UnrealizedPnl(day);
      peakValue := Max(peakValue, totalValue);
      snapshotIdCounter := snapshotIdCounter + 1;
      snapshots := snapshots + [Snapshot(snapshotIdCounter, day, totalValue, cash, totalValue - cash, unrealizedPnl,
                                         dailyRealizedPnl, peakValue, DrawdownPct(peakValue, totalValue),
                                         |positions.keys|, dailyTradeCount)];
    }

    method RunDay(day: Day, config: Config) returns (raised: bool)
      modifies this, broker
      ensures Step(State(), raised) == Backtest.RunDay(EnvOf(config), old(State()), day)
    {
      dailyTradeCount := 0;
      dailyRealizedPnl := 0.0;
      broker.SetCurrentDate(day);
      raised := CheckExits(day, config);
      if raised {
        return true;
      }
      ExecutePendingSignals(day, config);
      GenerateSignals(day, config);
      RecordSnapshot(day, config);
    }

    method ForceCloseAll(day: Day, config: Config) returns (raised: bool)
      modifies this, broker
      ensures Step(State(), raised) == ForceClose(EnvOf(config), old(State()), old(positions.keys), day)
    {
      var symbols := positions.keys;
      for i := 0 to |symbols|
        invariant ForceClose(EnvOf(config), State(), symbols[i..], day)
               == ForceClose(EnvOf(config), old(State()), symbols, day)
      {
        assert symbols[i..][1..] == symbols[i + 1..];
        raised := ExecuteExit(symbols[i], day, BacktestEnd, config);
        if raised {
          return true;
        }
      }
      return false;
    }

    method LoopOver(days: seq<Day>, config: Config) returns (raised: bool)
      modifies this, broker
      ensures Step(State(), raised) == RunDays(EnvOf(config), old(State()), days)
    {
      raised := false;
      for i := 0 to |days|
        invariant RunDays(EnvOf(config), State(), days[i..]) == RunDays(EnvOf(config), old(State()), days)
      {
        assert days[i..][1..] == days[i + 1..];
        raised := RunDay(days[i], config);
        if raised {
          return true;
        }
      }
      return false;
    }

    /** A whole run: the final state and the reported result are those of the function `Run`. */
    method Run(config: Config) returns (result: RunResult)
      modifies this, broker
      ensures (State(), result) == Backtest.Run(EnvOf(config), old(broker.State()))
    {
      ResetState();
      peakValue := config.initialCapital;
      var days := DatesBetween(broker.loader.tradingDates, config.start, config.end);
      if days == [] || config.symbols == [] {
        return RunResult(Completed, []);
      }
      result := RunOver(days, config);
    }

    /** The main loop, the forced close and the report; a raised exception makes the run fail with the trades so far. */
    method RunOver(days: seq<Day>, config: Config) returns (result: RunResult)
      requires days != []
      modifies this, broker
      ensures var loop := RunDays(EnvOf(config), old(State()), days);
              var end := if loop.raised then loop
                         else ForceClose(EnvOf(config), loop.sim, loop.sim.book.positions.keys, days[|days| - 1]);
              && State() == end.sim
              && result == RunResult(StatusOf(end.raised || ReportRaises(EnvOf(config), end.sim.book)), trades)
    {
      var raised := LoopOver(days, config);
      if raised {
        return RunResult(BacktestStatus.Failed, trades);
      }
      raised := ForceCloseAll(days[|days| - 1], config);
      result := RunResult(StatusOf(raised || ReportRaises(EnvOf(config), Ledger())), trades);
    }
  }
}
