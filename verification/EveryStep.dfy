/** The laws of the day loop at every state inside a day, not only at its end. */
module EveryStep {
  import opened Wrappers
  import opened Decimals
  import opened Dicts
  import opened Enums
  import opened MarketData
  import opened ExitRules
  import opened Simulator
  import opened Backtest
  import opened Invariants
  import opened Reconciliation
  import Accounting

  /** The states between the exits of a day. */
  function ExitStates(env: Env, sim: Sim, exits: seq<(Symbol, ExitReason)>, day: Day): seq<Sim>
    decreases |exits|
  {
    if exits == [] then [sim]
    else
      var first := ExecuteExit(env, sim, exits[0].0, day, Because(exits[0].1));
      [sim] + if first.raised then [first.sim] else ExitStates(env, first.sim, exits[1..], day)
  }

  /** The states between the entries of a day. */
  function EntryStates(env: Env, sim: Sim, signals: seq<Signal>, day: Day): seq<Sim>
    decreases |signals|
  {
    if signals == [] then [sim] else [sim] + EntryStates(env, Enter(env, sim, signals[0], day), signals[1..], day)
  }

  /** The states from the exits of a day to its snapshot. */
  function TradingStates(env: Env, sim: Sim, day: Day): seq<Sim> {
    var entered := EnterAll(env, TakePending(sim), sim.book.pending, day);
    var proposed := GenerateSignals(env, entered, day);
    EntryStates(env, TakePending(sim), sim.book.pending, day) + [proposed, RecordSnapshot(env, proposed, day)]
  }

  /** Every state of a day: counters reset, marked, scanned, each exit, each entry, signals, snapshot. */
  function DayStates(env: Env, sim: Sim, day: Day): seq<Sim> {
    var scanned := Scanned(env, sim, day);
    [ResetDay(sim), MarkTo(env, ResetDay(sim), day), scanned] +
    if DayScan(env, sim, day).raised then []
    else
      var exited := ExecuteExits(env, scanned, DayScan(env, sim, day).exits, day);
      ExitStates(env, scanned, DayScan(env, sim, day).exits, day) +
      if exited.raised then [] else TradingStates(env, exited.sim, day)
  }

  function RunStates(env: Env, sim: Sim, days: seq<Day>): seq<Sim>
    decreases |days|
  {
    if days == [] then [sim]
    else
      var first := RunDay(env, sim, days[0]);
      [sim] + DayStates(env, sim, days[0]) + if first.raised then [] else RunStates(env, first.sim, days[1..])
  }

  // ---- The states lead where the loop leads ----

  lemma {:induction false} ExitStatesEnd(env: Env, sim: Sim, exits: seq<(Symbol, ExitReason)>, day: Day)
    ensures var states := ExitStates(env, sim, exits, day);
            states != [] && states[|states| - 1] == ExecuteExits(env, sim, exits, day).sim
    decreases |exits|
  {
    if exits != [] {
      var first := ExecuteExit(env, sim, exits[0].0, day, Because(exits[0].1));
      if !first.raised { ExitStatesEnd(env, first.sim, exits[1..], day); }
    }
  }

  lemma DayStatesEnd(env: Env, sim: Sim, day: Day)
    ensures var states := DayStates(env, sim, day);
            states != [] && states[|states| - 1] == RunDay(env, sim, day).sim
  {
    DayPhases(env, sim, day);
    var scanned := Scanned(env, sim, day);
    if !DayScan(env, sim, day).raised {
      ExitStatesEnd(env, scanned, DayScan(env, sim, day).exits, day);
    }
  }

  lemma {:induction false} RunStatesEnd(env: Env, sim: Sim, days: seq<Day>)
    ensures var states := RunStates(env, sim, days);
            states != [] && states[|states| - 1] == RunDays(env, sim, days).sim
    decreases |days|
  {
    if days != [] {
      var first := RunDay(env, sim, days[0]);
      DayStatesEnd(env, sim, days[0]);
      if first.raised {
        LastOfJoin([sim] + DayStates(env, sim, days[0]), []);
      } else {
        RunStatesEnd(env, first.sim, days[1..]);
        LastOfJoin([sim] + DayStates(env, sim, days[0]), RunStates(env, first.sim, days[1..]));
      }
    }
  }

  lemma LastOfJoin(a: seq<Sim>, b: seq<Sim>)
    requires a != []
    ensures (a + b)[|a + b| - 1] == if b == [] then a[|a| - 1] else b[|b| - 1]
  {
  }

  // ---- What every kind of step keeps holds at every state ----

  ghost predicate All(I: Sim -> bool, states: seq<Sim>) {
    forall s :: s in states ==> Sound(s) && I(s)
  }

  lemma {:induction false} ExitStatesKeep(env: Env, I: Sim -> bool, sim: Sim, exits: seq<(Symbol, ExitReason)>,
                                          day: Day)
    requires Kept(env, I) && Sound(sim) && I(sim) && OnDay(sim, day)
    ensures All(I, ExitStates(env, sim, exits, day))
    decreases |exits|
  {
    if exits != [] {
      var (sym, reason) := exits[0];
      ExitKeepsSound(env, sim, sym, day, reason);
      ExitStatesKeep(env, I, ExecuteExit(env, sim, sym, day, Because(reason)).sim, exits[1..], day);
    }
  }

  lemma {:induction false} EntryStatesKeep(env: Env, I: Sim -> bool, sim: Sim, signals: seq<Signal>, day: Day)
    requires Kept(env, I) && Sound(sim) && I(sim) && OnDay(sim, day) && sim.book.pending == []
    ensures All(I, EntryStates(env, sim, signals, day))
    decreases |signals|
  {
    if signals != [] {
      EnterKeepsSound(env, sim, signals[0], day);
      EntryStatesKeep(env, I, Enter(env, sim, signals[0], day), signals[1..], day);
    }
  }

  lemma TradingStatesKeep(env: Env, I: Sim -> bool, sim: Sim, day: Day)
    requires Kept(env, I) && Sound(sim) && I(sim) && OnDay(sim, day)
    ensures All(I, TradingStates(env, sim, day))
  {
    var taken := TakePending(sim);
    var entered := EnterAll(env, taken, sim.book.pending, day);
    assert Quiet(sim, taken);
    EntryStatesKeep(env, I, taken, sim.book.pending, day);
    EntriesKeep(env, I, taken, sim.book.pending, day);
    GenerateAllKeepsSound(env, entered.book, env.config.symbols, day, TotalValue(entered.account));
    assert Quiet(entered, GenerateSignals(env, entered, day));
    EndOfDay(env, entered, day);
  }

  lemma MorningKeeps(env: Env, I: Sim -> bool, sim: Sim, day: Day)
    requires Kept(env, I) && Sound(sim) && I(sim)
    ensures All(I, [ResetDay(sim), MarkTo(env, ResetDay(sim), day), Scanned(env, sim, day)])
  {
    assert Quiet(sim, ResetDay(sim));
    MarkKeepsSound(env, ResetDay(sim), day);
    ScanKeeps(env, I, sim, day);
  }

  lemma DayStatesKeep(env: Env, I: Sim -> bool, sim: Sim, day: Day)
    requires Kept(env, I) && Sound(sim) && I(sim)
    ensures All(I, DayStates(env, sim, day))
  {
    var scanned := Scanned(env, sim, day);
    MorningKeeps(env, I, sim, day);
    ScanKeeps(env, I, sim, day);
    if !DayScan(env, sim, day).raised {
      ExitStatesKeep(env, I, scanned, DayScan(env, sim, day).exits, day);
      ExitsKeep(env, I, scanned, DayScan(env, sim, day).exits, day);
      TradingStatesKeep(env, I, ExecuteExits(env, scanned, DayScan(env, sim, day).exits, day).sim, day);
    }
  }

  lemma {:induction false} RunStatesKeep(env: Env, I: Sim -> bool, sim: Sim, days: seq<Day>)
    requires Kept(env, I) && Sound(sim) && I(sim)
    ensures All(I, RunStates(env, sim, days))
    decreases |days|
  {
    if days != [] {
      DayStatesKeep(env, I, sim, days[0]);
      DayKeeps(env, I, sim, days[0]);
      var first := RunDay(env, sim, days[0]);
      if !first.raised { RunStatesKeep(env, I, first.sim, days[1..]); }
    }
  }

  /**
    At every state of a run from any account: the book is sound, the broker holds what it held at the start and the
    engine's quantities on top, and its cash is the replay of the trades so far plus what zero fills were overcharged.
  */
  lemma {:induction false} EveryStateReconciles(env: Env, account: Account, days: seq<Day>, s: Sim)
    requires s in RunStates(env, Start(env, account), days)
    ensures Sound(s) && OnTop(account, s) && CashReconciled(env, account, s)
  {
    var start := Start(env, account);
    OnTopKept(env, account);
    RunStatesKeep(env, (t: Sim) => OnTop(account, t), start, days);
    CashReconciledKept(env, account);
    RunStatesKeep(env, (t: Sim) => CashReconciled(env, account, t), start, days);
  }

  /** From a flat account that satisfies the broker's laws, costs, profits and those laws hold at every state too. */
  lemma {:induction false} EveryStateBalances(env: Env, account: Account, capital: real, days: seq<Day>, s: Sim)
    requires Flat(account) && Accounting.Valued(account) && Accounting.Conserved(account, capital)
    requires s in RunStates(env, Start(env, account), days)
    ensures ProfitReconciled(env, account, s) && AccountLaws(s, capital)
  {
    var start := Start(env, account);
    ProfitReconciledKept(env, account);
    RunStatesKeep(env, (t: Sim) => ProfitReconciled(env, account, t), start, days);
    AccountLawsKept(env, capital);
    RunStatesKeep(env, (t: Sim) => AccountLaws(t, capital), start, days);
  }
}
