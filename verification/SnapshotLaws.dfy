/** Every snapshot of a run describes the account and the book at the end of its day, and carries the peak so far. */
module SnapshotLaws {
  import opened Wrappers
  import opened Decimals
  import opened Dicts
  import opened Enums
  import opened MarketData
  import opened Simulator
  import opened Backtest
  import opened Invariants
  import opened OrderLaws
  import opened Snapshots

  /** Profit of a position at the close of its bar on the day; nothing without one. */
  ghost predicate ProfitOn(loader: Loader, day: Day, pos: PositionRecord, profit: real) {
    && (forall row :: BarOn(loader, pos.symbol, day, row) ==>
          profit == (row.close - pos.avgCost) * pos.quantity as real)
    && ((forall row :: !BarOn(loader, pos.symbol, day, row)) ==> profit == 0.0)
  }

  /** The unrealised profit is the sum of the profits of the held positions. */
  ghost predicate ProfitsAddUp(loader: Loader, day: Day, keys: seq<Symbol>, vals: map<Symbol, PositionRecord>,
                               total: real)
    requires forall k :: k in keys ==> k in vals
    decreases |keys|
  {
    if keys == [] then total == 0.0
    else
      exists profit ::
        ProfitOn(loader, day, vals[keys[0]], profit) && ProfitsAddUp(loader, day, keys[1..], vals, total - profit)
  }

  lemma ProfitAtBar(loader: Loader, day: Day, pos: PositionRecord, row: Row)
    requires GetClose(loader, pos.symbol, day) == Some(row.close)
    ensures ProfitAt(loader, day, pos) == (row.close - pos.avgCost) * pos.quantity as real
  {
  }

  lemma ProfitAtClose(loader: Loader, day: Day, pos: PositionRecord)
    requires IsHistory(loader)
    ensures ProfitOn(loader, day, pos, ProfitAt(loader, day, pos))
  {
    PricesOfTheDay(loader, pos.symbol, day);
    forall row | BarOn(loader, pos.symbol, day, row)
      ensures ProfitAt(loader, day, pos) == (row.close - pos.avgCost) * pos.quantity as real
    {
      ProfitAtBar(loader, day, pos, row);
    }
  }

  lemma {:induction false} UnrealizedAddsUp(loader: Loader, day: Day, keys: seq<Symbol>,
                                            vals: map<Symbol, PositionRecord>)
    requires IsHistory(loader) && forall k :: k in keys ==> k in vals
    ensures ProfitsAddUp(loader, day, keys, vals, Unrealized(loader, day, keys, vals))
    decreases |keys|
  {
    if keys != [] {
      var profit := ProfitAt(loader, day, vals[keys[0]]);
      ProfitAtClose(loader, day, vals[keys[0]]);
      UnrealizedAddsUp(loader, day, keys[1..], vals);
      assert Unrealized(loader, day, keys, vals) - profit == Unrealized(loader, day, keys[1..], vals);
    }
  }

  /** What a snapshot says of the state at the end of its day. */
  ghost predicate Describes(env: Env, s: Snapshot, sim: Sim, day: Day) {
    && s.date == day && s.totalValue == TotalValue(sim.account) && s.cash == sim.account.cash
    && s.cash + s.invested == s.totalValue
    && s.positionsCount == |sim.book.positions.keys| && s.tradeCountDaily == sim.book.dailyTrades
    && s.realizedDaily == sim.book.dailyPnl && s.peakValue == sim.book.peakValue
    && ProfitsAddUp(env.loader, day, sim.book.positions.keys, sim.book.positions.vals, s.unrealizedPnl)
    && (s.peakValue > 0.0 ==> NearestCent(s.drawdownPct, (s.peakValue - s.totalValue) / s.peakValue * 100.0))
    && (s.peakValue <= 0.0 ==> s.drawdownPct == 0.0)
  }

  lemma SnapshotDescribes(env: Env, sim: Sim, day: Day)
    requires IsHistory(env.loader)
    ensures var s := SnapshotOf(env, sim, day);
            && Describes(env, s, RecordSnapshot(env, sim, day), day)
            && s.peakValue == Max(sim.book.peakValue, s.totalValue)
  {
    UnrealizedAddsUp(env.loader, day, sim.book.positions.keys, sim.book.positions.vals);
    var s := SnapshotOf(env, sim, day);
    if s.peakValue > 0.0 { CentsNearest(PctOf(s.peakValue - s.totalValue, s.peakValue)); }
  }

  /** A day that does not raise adds one snapshot, which describes the state it ends in. */
  lemma DayDescribed(env: Env, sim: Sim, day: Day)
    requires IsHistory(env.loader) && Sound(sim) && !RunDay(env, sim, day).raised
    ensures var r := RunDay(env, sim, day).sim;
            && r.book.snapshots != [] && r.book.snapshots[..|r.book.snapshots| - 1] == sim.book.snapshots
            && (var s := r.book.snapshots[|r.book.snapshots| - 1];
                Describes(env, s, r, day) && s.peakValue == Max(sim.book.peakValue, s.totalValue))
  {
    var exited, entered := TradingDay(env, sim, day);
    ExitsRecordNothing(env, Scanned(env, sim, day), DayScan(env, sim, day).exits, day);
    EntriesRecordNothing(env, TakePending(exited), sim.book.pending, day);
    GenerateAllKeepsSound(env, entered.book, env.config.symbols, day, TotalValue(entered.account));
    SnapshotDescribes(env, GenerateSignals(env, entered, day), day);
  }

  /** The highest of the configured capital and the totals so far. */
  ghost predicate IsPeak(capital: real, snapshots: seq<Snapshot>, peak: real) {
    && capital <= peak && (forall s :: s in snapshots ==> s.totalValue <= peak)
    && (peak == capital || exists s :: s in snapshots && s.totalValue == peak)
  }

  ghost predicate AllDescribed(env: Env, account: Account, days: seq<Day>, snapshots: seq<Snapshot>) {
    && |snapshots| == |days|
    && forall i :: 0 <= i < |days| ==> DescribedAt(env, account, days, snapshots, i)
  }

  /** The i-th snapshot describes the state after i + 1 days, and its peak is the highest value until then. */
  ghost predicate DescribedAt(env: Env, account: Account, days: seq<Day>, snapshots: seq<Snapshot>, i: int)
    requires 0 <= i < |days| == |snapshots|
  {
    && Describes(env, snapshots[i], RunDays(env, Start(env, account), days[..i + 1]).sim, days[i])
    && IsPeak(env.config.initialCapital, snapshots[..i + 1], snapshots[i].peakValue)
  }

  lemma DescribedLater(env: Env, account: Account, days: seq<Day>, snapshots: seq<Snapshot>)
    requires days != [] && |snapshots| == |days|
    requires AllDescribed(env, account, days[..|days| - 1], snapshots[..|days| - 1])
    ensures forall i :: 0 <= i < |days| - 1 ==> DescribedAt(env, account, days, snapshots, i)
  {
    var n := |days| - 1;
    forall i | 0 <= i < n ensures DescribedAt(env, account, days, snapshots, i) {
      assert DescribedAt(env, account, days[..n], snapshots[..n], i);
      assert days[..n][..i + 1] == days[..i + 1] && snapshots[..n][..i + 1] == snapshots[..i + 1];
    }
  }

  lemma PeakGoesOn(capital: real, snapshots: seq<Snapshot>, peak: real, s: Snapshot)
    requires IsPeak(capital, snapshots, peak) && s.peakValue == Max(peak, s.totalValue)
    ensures IsPeak(capital, snapshots + [s], s.peakValue)
  {
    if s.totalValue > peak {
      assert s in snapshots + [s];
    } else if peak != capital {
      var t :| t in snapshots && t.totalValue == peak;
      assert t in snapshots + [s];
    }
  }

  /**
    A run that does not raise has a snapshot for every day, which describes the account and the book at the end of that
    day; its peak is the highest of the configured capital and the total values so far.
  */
  lemma {:induction false} SnapshotsDescribeRun(env: Env, account: Account, days: seq<Day>)
    requires IsHistory(env.loader) && !RunDays(env, Start(env, account), days).raised
    ensures var b := RunDays(env, Start(env, account), days).sim.book;
            && AllDescribed(env, account, days, b.snapshots)
            && IsPeak(env.config.initialCapital, b.snapshots, b.peakValue)
    decreases |days|
  {
    if days != [] {
      var n := |days| - 1;
      var start, before := Start(env, account), RunDays(env, Start(env, account), days[..n]);
      LastDayOfRun(env, start, days);
      DaysSound(env, start, days[..n]);
      SnapshotsDescribeRun(env, account, days[..n]);
      DayDescribed(env, before.sim, days[n]);
      var r := RunDays(env, start, days).sim;
      var s := r.book.snapshots[|r.book.snapshots| - 1];
      LastDescribed(env, account, days, before.sim.book.snapshots, s, before.sim.book.peakValue, r);
      assert r.book.snapshots == before.sim.book.snapshots + [s];
    }
  }

  lemma LastOfAll(env: Env, account: Account, days: seq<Day>, snapshots: seq<Snapshot>)
    requires days != [] && |snapshots| == |days| && DescribedAt(env, account, days, snapshots, |days| - 1)
    requires forall i :: 0 <= i < |days| - 1 ==> DescribedAt(env, account, days, snapshots, i)
    ensures AllDescribed(env, account, days, snapshots)
  {
    forall i | 0 <= i < |days| ensures DescribedAt(env, account, days, snapshots, i) {
      if i == |days| - 1 { assert DescribedAt(env, account, days, snapshots, |days| - 1); }
    }
  }

  /** From one day to the next: the snapshots before, and the one that the day adds. */
  lemma LastDescribed(env: Env, account: Account, days: seq<Day>, was: seq<Snapshot>, s: Snapshot, peak: real, now: Sim)
    requires days != [] && now == RunDays(env, Start(env, account), days).sim
    requires AllDescribed(env, account, days[..|days| - 1], was) && IsPeak(env.config.initialCapital, was, peak)
    requires Describes(env, s, now, days[|days| - 1]) && s.peakValue == Max(peak, s.totalValue)
    ensures AllDescribed(env, account, days, was + [s])
    ensures IsPeak(env.config.initialCapital, was + [s], s.peakValue)
  {
    var n := |days| - 1;
    var all := was + [s];
    assert days[..n + 1] == days && all[..n + 1] == all && all[..n] == was;
    PeakGoesOn(env.config.initialCapital, was, peak, s);
    DescribedLater(env, account, days, all);
    assert DescribedAt(env, account, days, all, n);
    LastOfAll(env, account, days, all);
  }
}
