/**
  How a run ends. The forced close at the end passes "backtest_end" to a trade record that only takes an
  `ExitReason`, so a run that still holds a position with a bar on the last trading date never completes.
*/
module RunOutcome {
  import opened Wrappers
  import opened Decimals
  import opened Dicts
  import opened Enums
  import opened MarketData
  import opened ExitRules
  import opened Simulator
  import opened Backtest
  import opened Invariants
  import opened Reconciliation
  import opened ScanFailures
  import Accounting
  import DayLaws

  lemma {:induction false} ForceCloseRaises(env: Env, sim: Sim, symbols: seq<Symbol>, day: Day)
    requires Sound(sim) && OnDay(sim, day)
    requires forall sym :: sym in symbols ==> sym in sim.book.positions.vals
    ensures var r := ForceClose(env, sim, symbols, day);
            && (r.raised <==> exists sym :: sym in symbols && GetClose(env.loader, sym, day).Some?)
            && (!r.raised ==> r.sim == sim)
            && r.sim.book.trades == sim.book.trades
    decreases |symbols|
  {
    if symbols != [] {
      assert forall sym :: sym in symbols <==> sym == symbols[0] || sym in symbols[1..];
      ForcedExitRaises(env, sim, symbols[0], day);
      if GetClose(env.loader, symbols[0], day).None? {
        ForceCloseRaises(env, sim, symbols[1..], day);
      }
    }
  }

  lemma DayEndsOn(env: Env, sim: Sim, day: Day)
    requires Sound(sim) && !RunDay(env, sim, day).raised
    ensures OnDay(RunDay(env, sim, day).sim, day)
  {
    DayPhases(env, sim, day);
    DaySound(env, sim, day);
    ScannedSound(env, sim, day);
    ExitsSound(env, Scanned(env, sim, day), DayScan(env, sim, day).exits, day);
    var exited := ExecuteExits(env, Scanned(env, sim, day), DayScan(env, sim, day).exits, day).sim;
    EntriesSound(env, TakePending(exited), exited.book.pending, day);
    EndOfDay(env, EnterAll(env, TakePending(exited), exited.book.pending, day), day);
  }

  lemma LastDay(env: Env, sim: Sim, days: seq<Day>)
    requires Sound(sim) && days != [] && !RunDays(env, sim, days).raised
    ensures OnDay(RunDays(env, sim, days).sim, days[|days| - 1])
  {
    var n := |days| - 1;
    LastDayOfRun(env, sim, days);
    DaysSound(env, sim, days[..n]);
    DayEndsOn(env, RunDays(env, sim, days[..n]).sim, days[n]);
  }

  lemma LoopEnd(env: Env, account: Account)
    requires RunDates(env) != [] && !MainLoop(env, account).raised
    ensures Sound(MainLoop(env, account).sim) && OnDay(MainLoop(env, account).sim, RunDates(env)[|RunDates(env)| - 1])
  {
    assert MainLoop(env, account) == RunDays(env, Start(env, account), RunDates(env));
    DaysSound(env, Start(env, account), RunDates(env));
    LastDay(env, Start(env, account), RunDates(env));
  }

  /**
    A run over at least one trading date and one symbol completes exactly when no held symbol fails the exit scan of a
    day, no position left at the end has a bar on the last date, and the performance report does not raise. Its trade
    list is the main loop's either way.
  */
  lemma RunCompletes(env: Env, account: Account)
    requires RunDates(env) != [] && env.config.symbols != []
    ensures var days := RunDates(env);
            var loop := MainLoop(env, account);
            && (Run(env, account).1.status == Completed <==>
                  && (forall i :: 0 <= i < |days| ==> !StopsAt(env, Start(env, account), days, i))
                  && (forall sym :: sym in loop.sim.book.positions.vals ==>
                        GetClose(env.loader, sym, days[|days| - 1]).None?)
                  && !ReportRaises(env, loop.sim.book))
            && Run(env, account).1.trades == loop.sim.book.trades
  {
    var last := RunDates(env)[|RunDates(env)| - 1];
    var loop := MainLoop(env, account);
    assert loop == RunDays(env, Start(env, account), RunDates(env));
    DaysRaise(env, Start(env, account), RunDates(env));
    if !loop.raised {
      LoopEnd(env, account);
      ForceCloseRaises(env, loop.sim, loop.sim.book.positions.keys, last);
    }
  }

  /**
    With sane trailing stops it completes exactly when no position left at the end has a bar on the last date and the
    performance report does not raise.
  */
  lemma {:induction false} SaneRunCompletes(env: Env, account: Account)
    requires RunDates(env) != [] && env.config.symbols != [] && SaneTrailing(env)
    ensures var last := RunDates(env)[|RunDates(env)| - 1];
            Run(env, account).1.status == Completed <==>
              && (forall sym :: sym in MainLoop(env, account).sim.book.positions.vals ==>
                    GetClose(env.loader, sym, last).None?)
              && !ReportRaises(env, MainLoop(env, account).sim.book)
  {
    RunCompletes(env, account);
    SaneRunsThrough(env, account, RunDates(env));
    DaysRaise(env, Start(env, account), RunDates(env));
  }

  // ---- The forced close and the laws ----

  /** The forced sale moves account and positions like an exit for a valid reason. */
  lemma ForcedLikeManual(env: Env, sim: Sim, sym: Symbol, day: Day)
    ensures var forced := ExecuteExit(env, sim, sym, day, BacktestEnd).sim;
            var manual := ExecuteExit(env, sim, sym, day, Because(ExitReason.Manual)).sim;
            forced.account == manual.account && forced.book.positions == manual.book.positions
  {
  }

  /** A forced close sells nothing, or raises on the one position it has sold. */
  lemma {:induction false} ForceCloseSellsOne(env: Env, sim: Sim, symbols: seq<Symbol>, day: Day)
    requires Sound(sim) && OnDay(sim, day)
    ensures var r := ForceClose(env, sim, symbols, day);
            r.sim == sim || exists sym :: sym in symbols && r == ExecuteExit(env, sim, sym, day, BacktestEnd)
    decreases |symbols|
  {
    if symbols != [] {
      ForcedExitRaises(env, sim, symbols[0], day);
      if !ExecuteExit(env, sim, symbols[0], day, BacktestEnd).raised {
        ForceCloseSellsOne(env, sim, symbols[1..], day);
      }
    }
  }

  /** I speaks of the account and the positions alone. */
  ghost predicate OnlyMoney(I: Sim -> bool) {
    forall a: Sim, b: Sim {:trigger I(a), I(b)} ::
      a.account == b.account && a.book.positions == b.book.positions && I(a) ==> I(b)
  }

  /** Laws of the account and the positions alone survive the forced close as they survive an exit. */
  lemma ForceCloseKeeps(env: Env, I: Sim -> bool, sim: Sim, symbols: seq<Symbol>, day: Day)
    requires Kept(env, I) && Sound(sim) && I(sim) && OnDay(sim, day)
    requires OnlyMoney(I)
    ensures I(ForceClose(env, sim, symbols, day).sim)
  {
    var r := ForceClose(env, sim, symbols, day);
    ForceCloseSellsOne(env, sim, symbols, day);
    if r.sim != sim {
      var sym :| sym in symbols && r == ExecuteExit(env, sim, sym, day, BacktestEnd);
      var manual := ExecuteExit(env, sim, sym, day, Because(ExitReason.Manual)).sim;
      ForcedLikeManual(env, sim, sym, day);
      ExitKeepsSound(env, sim, sym, day, ExitReason.Manual);
      assert I(manual);
    }
  }

  lemma LoopKeeps(env: Env, I: Sim -> bool, account: Account)
    requires Kept(env, I) && I(Start(env, account))
    ensures I(MainLoop(env, account).sim)
  {
    assert MainLoop(env, account) == RunDays(env, Start(env, account), RunDates(env));
    DaysKeep(env, I, Start(env, account), RunDates(env));
  }

  lemma CloseKeeps(env: Env, I: Sim -> bool, account: Account)
    requires Kept(env, I) && OnlyMoney(I) && RunDates(env) != []
    requires !MainLoop(env, account).raised && I(MainLoop(env, account).sim)
    ensures var sim := MainLoop(env, account).sim;
            I(ForceClose(env, sim, sim.book.positions.keys, RunDates(env)[|RunDates(env)| - 1]).sim)
  {
    var sim := MainLoop(env, account).sim;
    LoopEnd(env, account);
    ForceCloseKeeps(env, I, sim, sim.book.positions.keys, RunDates(env)[|RunDates(env)| - 1]);
  }

  lemma RunKeeps(env: Env, I: Sim -> bool, account: Account)
    requires Kept(env, I) && I(Start(env, account))
    requires OnlyMoney(I)
    ensures I(Run(env, account).0)
  {
    LoopKeeps(env, I, account);
    if RunDates(env) != [] && !MainLoop(env, account).raised { CloseKeeps(env, I, account); }
  }

  /**
    After a whole run, completed or failed, the broker holds what it held before and the engine's quantities on top.
  */
  lemma {:induction false} WholeRunOnTop(env: Env, account: Account)
    ensures OnTop(account, Run(env, account).0)
    ensures Mirror(Run(env, account).0) <==> Flat(account)
  {
    OnTopKept(env, account);
    RunKeeps(env, (s: Sim) => OnTop(account, s), account);
    var sim := Run(env, account).0;
    assert forall sym :: Held(sim.account, sym) == Held(account, sym) + EngineQuantity(sim.book, sym);
  }

  /** So does the broker's conservation law, and the cash never goes below zero. */
  lemma {:induction false} WholeRunBalances(env: Env, account: Account, capital: real)
    requires Accounting.Valued(account) && Accounting.Conserved(account, capital)
    ensures AccountLaws(Run(env, account).0, capital)
    ensures NonNegativeCloses(env.loader) && 0.0 <= env.costs.sellRate <= 0.5 && account.cash >= 0.0 ==>
              Run(env, account).0.account.cash >= 0.0
  {
    AccountLawsKept(env, capital);
    RunKeeps(env, (s: Sim) => AccountLaws(s, capital), account);
    if NonNegativeCloses(env.loader) && 0.0 <= env.costs.sellRate <= 0.5 && account.cash >= 0.0 {
      SolventKept(env);
      RunKeeps(env, Solvent, account);
    }
  }

  /**
    When the forced close of a position raises, the broker has sold it and the trade list has not heard of it: the
    ledger misses exactly the proceeds less the commission, on top of what zero fills were overcharged.
  */
  lemma ForcedCloseBreaksLedger(env: Env, start: Account, sim: Sim, sym: Symbol, day: Day)
    requires Sound(sim) && CashReconciled(env, start, sim) && OnTop(start, sim) && OnDay(sim, day)
    requires sym in sim.book.positions.vals && GetClose(env.loader, sym, day).Some?
    ensures var r := ExecuteExit(env, sim, sym, day, BacktestEnd);
            var pos := sim.book.positions.vals[sym];
            var close := GetClose(env.loader, sym, day).value;
            && r.raised
            && r.sim.account.cash == start.cash + LedgerCash(r.sim.book.trades) + Overcharged(env, r.sim.book.trades)
                                     + (Amount(close, pos.quantity) - ExitFee(env, pos, close))
            && sym !in r.sim.book.positions.vals && Held(r.sim.account, sym) == Held(start, sym)
  {
    ForcedExitRaises(env, sim, sym, day);
    ExitAccepted(env, sim, sym, day);
    assert Held(sim.account, sym) == Held(start, sym) + sim.book.positions.vals[sym].quantity;
  }

  // ---- The forced close as intended ----

  function CloseAll(symbols: seq<Symbol>, reason: ExitReason): seq<(Symbol, ExitReason)> {
    seq(|symbols|, i requires 0 <= i < |symbols| => (symbols[i], reason))
  }

  /**
    The intended forced close of all held symbols, with a reason the trade record accepts: it never raises, keeps the
    ledger as reconciled as it was, and leaves exactly the positions that have no bar on the last date.
  */
  lemma IntendedCloseReconciles(env: Env, start: Account, sim: Sim, reason: ExitReason, day: Day)
    requires Sound(sim) && OnDay(sim, day)
    ensures var r := ExecuteExits(env, sim, CloseAll(sim.book.positions.keys, reason), day);
            && !r.raised
            && (OnTop(start, sim) ==> OnTop(start, r.sim))
            && (CashReconciled(env, start, sim) ==> CashReconciled(env, start, r.sim))
            && (ProfitReconciled(env, start, sim) ==> ProfitReconciled(env, start, r.sim))
            && forall sym :: sym in r.sim.book.positions.vals <==>
                 sym in sim.book.positions.vals && GetClose(env.loader, sym, day).None?
  {
    var exits := CloseAll(sim.book.positions.keys, reason);
    ExitsSound(env, sim, exits, day);
    IntendedCloseKeeps(env, start, sim, exits, day);
    forall sym
      ensures sym in ExecuteExits(env, sim, exits, day).sim.book.positions.vals <==>
                sym in sim.book.positions.vals && GetClose(env.loader, sym, day).None?
    {
      IntendedCloseLeaves(env, sim, reason, day, sym);
    }
  }

  lemma IntendedCloseKeeps(env: Env, start: Account, sim: Sim, exits: seq<(Symbol, ExitReason)>, day: Day)
    requires Sound(sim) && OnDay(sim, day)
    ensures var next := ExecuteExits(env, sim, exits, day).sim;
            && (OnTop(start, sim) ==> OnTop(start, next))
            && (CashReconciled(env, start, sim) ==> CashReconciled(env, start, next))
            && (ProfitReconciled(env, start, sim) ==> ProfitReconciled(env, start, next))
  {
    if OnTop(start, sim) {
      OnTopKept(env, start);
      ExitsKeep(env, (s: Sim) => OnTop(start, s), sim, exits, day);
    }
    if CashReconciled(env, start, sim) {
      CashReconciledKept(env, start);
      ExitsKeep(env, (s: Sim) => CashReconciled(env, start, s), sim, exits, day);
    }
    if ProfitReconciled(env, start, sim) {
      ProfitReconciledKept(env, start);
      ExitsKeep(env, (s: Sim) => ProfitReconciled(env, start, s), sim, exits, day);
    }
  }

  lemma IntendedCloseLeaves(env: Env, sim: Sim, reason: ExitReason, day: Day, sym: Symbol)
    requires Sound(sim) && OnDay(sim, day)
    ensures sym in ExecuteExits(env, sim, CloseAll(sim.book.positions.keys, reason), day).sim.book.positions.vals <==>
              sym in sim.book.positions.vals && GetClose(env.loader, sym, day).None?
  {
    var keys := sim.book.positions.keys;
    var exits := CloseAll(keys, reason);
    if sym in sim.book.positions.vals {
      var i :| 0 <= i < |keys| && keys[i] == sym;
      assert exits[i] == (sym, reason) && exits[i] in exits;
      DayLaws.ExitsRemove(env, sim, exits, day, sym);
    } else {
      DayLaws.ExitsAddNothing(env, sim, exits, day, sym);
    }
  }
}
