/** The snapshots a run records, and the drawdown computed from them against the drawdowns recorded in them. */
module Snapshots {
  import opened Wrappers
  import opened Decimals
  import opened Enums
  import opened MarketData
  import opened Simulator
  import opened Backtest
  import opened Invariants
  import opened Dicts
  import opened Reconciliation
  import Accounting
  import Metrics

  ghost predicate SameSnapshots(sim: Sim, next: Sim) {
    next.book.snapshots == sim.book.snapshots && next.book.peakValue == sim.book.peakValue
  }

  lemma {:induction false} ExitsRecordNothing(env: Env, sim: Sim, exits: seq<(Symbol, ExitReason)>, day: Day)
    requires Sound(sim) && OnDay(sim, day)
    ensures SameSnapshots(sim, ExecuteExits(env, sim, exits, day).sim)
    decreases |exits|
  {
    if exits != [] {
      ExitKeepsSound(env, sim, exits[0].0, day, exits[0].1);
      ExitsRecordNothing(env, ExecuteExit(env, sim, exits[0].0, day, Because(exits[0].1)).sim, exits[1..], day);
    }
  }

  lemma {:induction false} EntriesRecordNothing(env: Env, sim: Sim, signals: seq<Signal>, day: Day)
    ensures SameSnapshots(sim, EnterAll(env, sim, signals, day))
    decreases |signals|
  {
    if signals != [] {
      EntriesRecordNothing(env, Enter(env, sim, signals[0], day), signals[1..], day);
    }
  }

  /** What has been recorded so far is within the running peak. */
  ghost predicate Recorded(book: Book, capital: real, last: Day) {
    && Metrics.EngineSnapshots(book.snapshots, capital)
    && capital <= book.peakValue
    && forall i :: 0 <= i < |book.snapshots| ==>
         book.snapshots[i].date <= last && book.snapshots[i].totalValue <= book.peakValue
  }

  lemma DayRecords(env: Env, sim: Sim, capital: real, last: Day, day: Day)
    requires Sound(sim) && Recorded(sim.book, capital, last) && last < day
    ensures var r := RunDay(env, sim, day);
            && Recorded(r.sim.book, capital, day)
            && (!r.raised ==> exists s: Snapshot :: s.date == day && r.sim.book.snapshots == sim.book.snapshots + [s])
  {
    DayPhases(env, sim, day);
    DaySound(env, sim, day);
    ScannedSound(env, sim, day);
    if !DayScan(env, sim, day).raised {
      var exits := DayScan(env, sim, day).exits;
      ExitsSound(env, Scanned(env, sim, day), exits, day);
      ExitsRecordNothing(env, Scanned(env, sim, day), exits, day);
      var exited := ExecuteExits(env, Scanned(env, sim, day), exits, day).sim;
      EntriesSound(env, TakePending(exited), exited.book.pending, day);
      EntriesRecordNothing(env, TakePending(exited), exited.book.pending, day);
      var entered := EnterAll(env, TakePending(exited), exited.book.pending, day);
      EndOfDayRecords(env, entered, capital, last, day);
    }
  }

  lemma EndOfDayRecords(env: Env, sim: Sim, capital: real, last: Day, day: Day)
    requires Sound(sim) && Recorded(sim.book, capital, last) && last < day
    ensures var r := RecordSnapshot(env, GenerateSignals(env, sim, day), day);
            && Recorded(r.book, capital, day)
            && exists s: Snapshot :: s.date == day && r.book.snapshots == sim.book.snapshots + [s]
  {
    GenerateAllKeepsSound(env, sim.book, env.config.symbols, day, TotalValue(sim.account));
    var s := SnapshotOf(env, GenerateSignals(env, sim, day), day);
    AppendSnapshot(sim.book, s, capital, last);
  }

  lemma AppendSnapshot(book: Book, s: Snapshot, capital: real, last: Day)
    requires Recorded(book, capital, last) && last < s.date
    requires s.peakValue == Max(book.peakValue, s.totalValue) && s.drawdownPct == DrawdownPct(s.peakValue, s.totalValue)
    ensures Recorded(book.(peakValue := s.peakValue, lastSnapshotId := s.id, snapshots := book.snapshots + [s]),
                     capital, s.date)
  {
  }

  lemma LaterDays(days: seq<Day>)
    requires Increasing(days) && days != []
    ensures Increasing(days[1..]) && (days[1..] != [] ==> days[0] < days[1..][0])
  {
  }

  lemma {:induction false} DaysRecord(env: Env, sim: Sim, capital: real, last: Day, days: seq<Day>)
    requires Sound(sim) && Recorded(sim.book, capital, last)
    requires Increasing(days) && (days != [] ==> last < days[0])
    ensures var r := RunDays(env, sim, days);
            && Metrics.EngineSnapshots(r.sim.book.snapshots, capital)
            && (!r.raised ==> |r.sim.book.snapshots| == |sim.book.snapshots| + |days|)
    decreases |days|
  {
    if days != [] {
      DayRecords(env, sim, capital, last, days[0]);
      DaySound(env, sim, days[0]);
      if !RunDay(env, sim, days[0]).raised {
        LaterDays(days);
        DaysRecord(env, RunDay(env, sim, days[0]).sim, capital, days[0], days[1..]);
      }
    }
  }

  /**
    A run records one snapshot a day, and the maximum drawdown calculated from them never exceeds the largest
    drawdown among them, whatever capital the configuration names, as long as no total value is negative.
  */
  lemma DrawdownOfRun(env: Env, account: Account)
    requires Increasing(env.loader.tradingDates)
    ensures var loop := MainLoop(env, account);
            var snapshots := loop.sim.book.snapshots;
            && (!loop.raised ==> |snapshots| == |RunDates(env)|)
            && (snapshots != [] && (forall i :: 0 <= i < |snapshots| ==> snapshots[i].totalValue >= 0.0) ==>
                  exists k :: 0 <= k < |snapshots| && Metrics.MaxDrawdown(snapshots) <= snapshots[k].drawdownPct)
  {
    var days := RunDates(env);
    DatesBetweenIncreasing(env.loader.tradingDates, env.config.start, env.config.end);
    DaysRecord(env, Start(env, account), env.config.initialCapital, if days == [] then 0 else days[0] - 1, days);
    var snapshots := MainLoop(env, account).sim.book.snapshots;
    if snapshots != [] && forall i :: 0 <= i < |snapshots| ==> snapshots[i].totalValue >= 0.0 {
      Metrics.WithinRecordedDrawdown(snapshots, env.config.initialCapital);
    }
  }

  // ---- Totals that are not negative ----

  ghost predicate NonNegativeWorth(a: Account) {
    a.cash >= 0.0 && forall sym :: sym in a.positions.vals && a.positions.vals[sym].quantity > 0 ==>
                       a.positions.vals[sym].marketValue >= 0.0
  }

  lemma WorthIsTotal(a: Account)
    requires NonNegativeWorth(a)
    ensures TotalValue(a) >= 0.0
  {
    SumOverNonNegative(a.positions.keys, a.positions.vals, OpenValue);
  }

  /** Prices and rates under which nothing is ever worth less than nothing. */
  ghost predicate SaneMarket(env: Env) {
    NonNegativeCloses(env.loader) && env.costs.slippageBps >= -10000 && 0.0 <= env.costs.sellRate <= 0.5
  }

  ghost predicate Worthy(sim: Sim) { NonNegativeWorth(sim.account) }

  lemma EntryWorthy(env: Env, sim: Sim, next: Sim, signal: Signal, n: Shares, open: real, day: Day)
    requires SaneMarket(env) && Worthy(sim) && Entered(env, sim, next, signal, n, open, day)
    ensures Worthy(next)
  {
    var fill := SlippagePrice(env.costs, OrderSide.Buy, open);
    FillSign(env.costs, open);
    EntryPurchases(env, sim, next, signal, n, open, day);
    PurchaseWorthy(sim.account, next.account, signal.symbol, n, fill,
                   Commission(env.costs, OrderSide.Buy, Amount(fill, n)), day);
  }

  lemma PurchaseWorthy(a: Account, b: Account, sym: Symbol, n: Shares, fill: real, fee: real, day: Day)
    requires NonNegativeWorth(a) && Purchased(a, b, sym, n, fill, fee, day) && fill >= 0.0
    ensures NonNegativeWorth(b)
  {
    AmountSign(fill, n);
    AmountSign(fill, Held(a, sym) + n);
  }

  lemma FillSign(costs: Costs, open: real)
    requires costs.slippageBps >= -10000 && open > 0.0
    ensures SlippagePrice(costs, OrderSide.Buy, open) >= 0.0
  {
    ScaledSign(open, costs.slippageBps as real / 10000.0);
  }

  lemma ExitWorthy(env: Env, sim: Sim, next: Sim, sym: Symbol, day: Day, reason: ExitReason)
    requires SaneMarket(env) && Worthy(sim) && Exited(env, sim, next, sym, day, reason)
    ensures Worthy(next)
  {
    var n, close := sim.book.positions.vals[sym].quantity, GetClose(env.loader, sym, day).value;
    AmountSign(close, n);
    Accounting.SmallRate(env.costs, Amount(close, n));
    AmountSign(close, sim.account.positions.vals[sym].quantity - n);
  }

  lemma MarkWorthy(env: Env, sim: Sim, day: Day)
    requires SaneMarket(env) && Worthy(sim)
    ensures Worthy(MarkTo(env, sim, day))
  {
    var marked := MarkTo(env, sim, day).account;
    forall sym | sym in marked.positions.vals && marked.positions.vals[sym].quantity > 0
      ensures marked.positions.vals[sym].marketValue >= 0.0
    {
      var p, close := sim.account.positions.vals[sym], GetClose(env.loader, sym, day);
      if close.Some? { AmountSign(close.value, p.quantity); }
    }
  }

  lemma WorthyKept(env: Env)
    requires SaneMarket(env)
    ensures Kept(env, Worthy)
  {
    forall sim, next, sym, day, reason | Worthy(sim) && Exited(env, sim, next, sym, day, reason) ensures Worthy(next) {
      ExitWorthy(env, sim, next, sym, day, reason);
    }
    forall sim, next, signal, n, open, day | Worthy(sim)
      && Entered(env, sim, next, signal, n, open, day) ensures Worthy(next) {
      EntryWorthy(env, sim, next, signal, n, open, day);
    }
    forall sim, day | Worthy(sim) ensures Worthy(MarkTo(env, sim, day)) {
      MarkWorthy(env, sim, day);
    }
  }

  ghost predicate TotalsNonNegative(snapshots: seq<Snapshot>) {
    forall i :: 0 <= i < |snapshots| ==> snapshots[i].totalValue >= 0.0
  }

  /** The snapshot of a day shows the total value the day ends with. */
  lemma DayShowsTotal(env: Env, sim: Sim, day: Day)
    requires Sound(sim)
    ensures var r := RunDay(env, sim, day);
            if r.raised then r.sim.book.snapshots == sim.book.snapshots
            else |r.sim.book.snapshots| == |sim.book.snapshots| + 1 && sim.book.snapshots <= r.sim.book.snapshots
                 && r.sim.book.snapshots[|sim.book.snapshots|].totalValue == TotalValue(r.sim.account)
  {
    DayPhases(env, sim, day);
    DaySound(env, sim, day);
    ScannedSound(env, sim, day);
    if !DayScan(env, sim, day).raised {
      var exits := DayScan(env, sim, day).exits;
      ExitsSound(env, Scanned(env, sim, day), exits, day);
      ExitsRecordNothing(env, Scanned(env, sim, day), exits, day);
      var exited := ExecuteExits(env, Scanned(env, sim, day), exits, day).sim;
      EntriesSound(env, TakePending(exited), exited.book.pending, day);
      EntriesRecordNothing(env, TakePending(exited), exited.book.pending, day);
      EndOfDay(env, EnterAll(env, TakePending(exited), exited.book.pending, day), day);
    }
  }

  lemma {:induction false} DaysWorthy(env: Env, sim: Sim, days: seq<Day>)
    requires SaneMarket(env) && Sound(sim) && Worthy(sim) && TotalsNonNegative(sim.book.snapshots)
    ensures TotalsNonNegative(RunDays(env, sim, days).sim.book.snapshots)
    decreases |days|
  {
    if days != [] {
      var first := RunDay(env, sim, days[0]);
      WorthyKept(env);
      DayKeeps(env, Worthy, sim, days[0]);
      DayShowsTotal(env, sim, days[0]);
      WorthIsTotal(first.sim.account);
      if !first.raised { DaysWorthy(env, first.sim, days[1..]); }
    }
  }

  /** With sane prices and rates no snapshot shows a negative total, so the bound holds without asking. */
  lemma DrawdownOfSaneRun(env: Env, account: Account)
    requires Increasing(env.loader.tradingDates) && SaneMarket(env) && NonNegativeWorth(account)
    ensures var snapshots := MainLoop(env, account).sim.book.snapshots;
            && TotalsNonNegative(snapshots)
            && (snapshots != [] ==>
                exists k :: 0 <= k < |snapshots| && Metrics.MaxDrawdown(snapshots) <= snapshots[k].drawdownPct)
  {
    DaysWorthy(env, Start(env, account), RunDates(env));
    assert MainLoop(env, account) == RunDays(env, Start(env, account), RunDates(env));
    DrawdownOfRun(env, account);
  }
}
