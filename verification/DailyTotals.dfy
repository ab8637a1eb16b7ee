/** The daily figures in the snapshots add up: to the closed positions' profit, and to the number of trades. */
module DailyTotals {
  import opened Wrappers
  import opened Decimals
  import opened Dicts
  import opened Enums
  import opened MarketData
  import opened Simulator
  import opened Backtest
  import opened Invariants
  import opened Reconciliation

  function DailyPnl(snapshots: seq<Snapshot>): real {
    if snapshots == [] then 0.0 else DailyPnl(snapshots[..|snapshots| - 1]) + snapshots[|snapshots| - 1].realizedDaily
  }

  function DailyTrades(snapshots: seq<Snapshot>): nat {
    if snapshots == [] then 0
    else DailyTrades(snapshots[..|snapshots| - 1]) + snapshots[|snapshots| - 1].tradeCountDaily
  }

  /** Beyond what the snapshots account for, the closed profit and the trades are today's counters. */
  ghost predicate Tallied(book: Book) {
    && ClosedPnl(book.closed) == DailyPnl(book.snapshots) + book.dailyPnl
    && |book.trades| == DailyTrades(book.snapshots) + book.dailyTrades
  }

  /** All of it is in the snapshots, whatever yesterday's counters still say. */
  ghost predicate AllRecorded(book: Book) {
    ClosedPnl(book.closed) == DailyPnl(book.snapshots) && |book.trades| == DailyTrades(book.snapshots)
  }

  lemma {:induction false} ExitsTally(env: Env, sim: Sim, exits: seq<(Symbol, ExitReason)>, day: Day)
    requires Sound(sim) && OnDay(sim, day) && Tallied(sim.book)
    ensures Tallied(ExecuteExits(env, sim, exits, day).sim.book)
    decreases |exits|
  {
    if exits != [] {
      var (sym, reason) := exits[0];
      var next := ExecuteExit(env, sim, sym, day, Because(reason)).sim;
      ExitKeepsSound(env, sim, sym, day, reason);
      if next != sim {
        assert next.book.closed[..|next.book.closed| - 1] == sim.book.closed;
      }
      ExitsTally(env, next, exits[1..], day);
    }
  }

  lemma {:induction false} EntriesTally(env: Env, sim: Sim, signals: seq<Signal>, day: Day)
    requires Sound(sim) && OnDay(sim, day) && sim.book.pending == [] && Tallied(sim.book)
    ensures Tallied(EnterAll(env, sim, signals, day).book)
    decreases |signals|
  {
    if signals != [] {
      EnterKeepsSound(env, sim, signals[0], day);
      EntriesTally(env, Enter(env, sim, signals[0], day), signals[1..], day);
    }
  }

  lemma EndTallies(env: Env, sim: Sim, day: Day)
    requires Sound(sim) && Tallied(sim.book)
    ensures AllRecorded(RecordSnapshot(env, GenerateSignals(env, sim, day), day).book)
  {
    EndOfDay(env, sim, day);
    var r := RecordSnapshot(env, GenerateSignals(env, sim, day), day);
    GenerateAllKeepsSound(env, sim.book, env.config.symbols, day, TotalValue(sim.account));
    assert r.book.snapshots[..|r.book.snapshots| - 1] == sim.book.snapshots;
  }

  lemma TradingTallies(env: Env, sim: Sim, day: Day)
    requires Sound(sim) && OnDay(sim, day) && Tallied(sim.book)
    ensures var entered := EnterAll(env, TakePending(sim), sim.book.pending, day);
            AllRecorded(RecordSnapshot(env, GenerateSignals(env, entered, day), day).book)
  {
    EntriesSound(env, TakePending(sim), sim.book.pending, day);
    EntriesTally(env, TakePending(sim), sim.book.pending, day);
    EndTallies(env, EnterAll(env, TakePending(sim), sim.book.pending, day), day);
  }

  lemma DayTallies(env: Env, sim: Sim, day: Day)
    requires Sound(sim) && AllRecorded(sim.book)
    ensures var r := RunDay(env, sim, day); if r.raised then Tallied(r.sim.book) else AllRecorded(r.sim.book)
  {
    DayPhases(env, sim, day);
    DaySound(env, sim, day);
    ScannedSound(env, sim, day);
    if !DayScan(env, sim, day).raised {
      var exits := DayScan(env, sim, day).exits;
      ExitsSound(env, Scanned(env, sim, day), exits, day);
      ExitsTally(env, Scanned(env, sim, day), exits, day);
      TradingTallies(env, ExecuteExits(env, Scanned(env, sim, day), exits, day).sim, day);
    }
  }

  lemma {:induction false} DaysTally(env: Env, sim: Sim, days: seq<Day>)
    requires Sound(sim) && AllRecorded(sim.book)
    ensures var r := RunDays(env, sim, days); if r.raised then Tallied(r.sim.book) else AllRecorded(r.sim.book)
    decreases |days|
  {
    if days != [] {
      DayTallies(env, sim, days[0]);
      DaySound(env, sim, days[0]);
      if !RunDay(env, sim, days[0]).raised {
        DaysTally(env, RunDay(env, sim, days[0]).sim, days[1..]);
      }
    }
  }

  /**
    After any days that did not raise, the daily realised profits in the snapshots sum to the profit of all closed
    positions, and the daily trade counts to the number of trades. On a day that raised, the rest is in the counters.
  */
  lemma {:induction false} SnapshotsAddUp(env: Env, account: Account, days: seq<Day>)
    ensures var r := RunDays(env, Start(env, account), days);
            var book := r.sim.book;
            && ClosedPnl(book.closed) == DailyPnl(book.snapshots) + (if r.raised then book.dailyPnl else 0.0)
            && |book.trades| == DailyTrades(book.snapshots) + (if r.raised then book.dailyTrades else 0)
  {
    DaysTally(env, Start(env, account), days);
  }
}
