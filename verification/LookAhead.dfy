/**
  No look-ahead: what a run has done by the end of day T depends on the bars up to T alone. Two price histories
  that agree through T, and are otherwise arbitrary, drive the engine and the broker through identical states.
*/
module LookAhead {
  import opened Wrappers
  import opened Decimals
  import opened Dicts
  import opened Enums
  import opened MarketData
  import opened ExitRules
  import opened Simulator
  import opened Backtest
  import opened Invariants

  /** The same settings, configuration and oracle over two histories that agree up to and including `last`. */
  ghost predicate Twins(e: Env, f: Env, last: Day) {
    && f == e.(loader := f.loader)
    && IsHistory(e.loader) && IsHistory(f.loader)
    && AgreeThrough(e.loader, f.loader, last)
  }

  lemma PricesAgree(e: Env, f: Env, last: Day, sym: Symbol, day: Day)
    requires Twins(e, f, last) && day <= last
    ensures GetClose(e.loader, sym, day) == GetClose(f.loader, sym, day)
    ensures GetOpen(e.loader, sym, day) == GetOpen(f.loader, sym, day)
  {
    LookupsAgree(e.loader, f.loader, last, sym, day, day);
  }

  lemma MarkAgrees(e: Env, f: Env, last: Day, sim: Sim, day: Day)
    requires Twins(e, f, last) && day <= last
    ensures MarkTo(e, sim, day) == MarkTo(f, sim, day)
  {
    var vals := sim.account.positions.vals;
    forall sym | sym in vals
      ensures Marked(e.loader, sym, vals[sym], day) == Marked(f.loader, sym, vals[sym], day)
    {
      PricesAgree(e, f, last, sym, day);
    }
    assert SetDate(e.loader, sim.account, day).positions.vals == SetDate(f.loader, sim.account, day).positions.vals;
  }

  lemma {:induction false} ScanAgrees(e: Env, f: Env, last: Day, day: Day, keys: seq<Symbol>,
                                      vals: map<Symbol, PositionRecord>, scan: Scan)
    requires Twins(e, f, last) && day <= last && forall k :: k in keys ==> k in vals
    ensures ScanAll(e, day, keys, vals, scan) == ScanAll(f, day, keys, vals, scan)
    decreases |keys|
  {
    if keys != [] {
      PricesAgree(e, f, last, keys[0], day);
      ScanAgrees(e, f, last, day, keys[1..], vals, ScanOne(e, day, keys[0], vals[keys[0]], scan));
    }
  }

  /** Placing an order looks at today's open at most. */
  lemma PlaceAgrees(e: Env, f: Env, last: Day, account: Account, order: OrderRequest, day: Day)
    requires Twins(e, f, last) && day <= last && account.currentDate == Some(day)
    ensures Place(e.loader, e.costs, account, order) == Place(f.loader, e.costs, account, order)
  {
    PricesAgree(e, f, last, order.symbol, day);
    assert FillPrice(e.loader, e.costs, day, order) == FillPrice(f.loader, e.costs, day, order);
  }

  lemma ExitAgrees(e: Env, f: Env, last: Day, sim: Sim, sym: Symbol, day: Day, tag: ExitTag)
    requires Twins(e, f, last) && day <= last && OnDay(sim, day)
    ensures ExecuteExit(e, sim, sym, day, tag) == ExecuteExit(f, sim, sym, day, tag)
  {
    PricesAgree(e, f, last, sym, day);
    if sym in sim.book.positions.vals && GetClose(e.loader, sym, day).Some? {
      var order := ExitOrder(sim.book.positions.vals[sym], sym, GetClose(e.loader, sym, day).value);
      PlaceAgrees(e, f, last, sim.account, order, day);
    }
  }

  lemma {:induction false} ExitsAgree(e: Env, f: Env, last: Day, sim: Sim, exits: seq<(Symbol, ExitReason)>, day: Day)
    requires Twins(e, f, last) && day <= last && OnDay(sim, day) && Sound(sim)
    ensures ExecuteExits(e, sim, exits, day) == ExecuteExits(f, sim, exits, day)
    decreases |exits|
  {
    if exits != [] {
      ExitAgrees(e, f, last, sim, exits[0].0, day, Because(exits[0].1));
      ExitKeepsSound(e, sim, exits[0].0, day, exits[0].1);
      ExitsAgree(e, f, last, ExecuteExit(e, sim, exits[0].0, day, Because(exits[0].1)).sim, exits[1..], day);
    }
  }

  lemma FillAgrees(e: Env, f: Env, last: Day, sim: Sim, signal: Signal, day: Day)
    requires Twins(e, f, last) && day <= last && OnDay(sim, day)
    ensures EntryFill(e, sim, signal, day) == EntryFill(f, sim, signal, day)
  {
    var sym := signal.symbol;
    PricesAgree(e, f, last, sym, day);
    if GetOpen(e.loader, sym, day).Some? {
      var quantity := RiskCheck(e, sim, sym, signal.quantity, GetOpen(e.loader, sym, day).value);
      assert quantity == RiskCheck(f, sim, sym, signal.quantity, GetOpen(e.loader, sym, day).value);
      if quantity.Some? {
        PlaceAgrees(e, f, last, sim.account, EntryOrder(sym, quantity.value), day);
      }
    }
  }

  lemma EnterAgrees(e: Env, f: Env, last: Day, sim: Sim, signal: Signal, day: Day)
    requires Twins(e, f, last) && day <= last && OnDay(sim, day)
    ensures Enter(e, sim, signal, day) == Enter(f, sim, signal, day)
    ensures OnDay(Enter(e, sim, signal, day), day)
  {
    FillAgrees(e, f, last, sim, signal, day);
    if EntryFill(e, sim, signal, day).Some? {
      FillHasEffect(e, sim, signal, day);
    }
  }

  lemma {:induction false} EntriesAgree(e: Env, f: Env, last: Day, sim: Sim, signals: seq<Signal>, day: Day)
    requires Twins(e, f, last) && day <= last && OnDay(sim, day)
    ensures EnterAll(e, sim, signals, day) == EnterAll(f, sim, signals, day)
    decreases |signals|
  {
    if signals != [] {
      EnterAgrees(e, f, last, sim, signals[0], day);
      EntriesAgree(e, f, last, Enter(e, sim, signals[0], day), signals[1..], day);
    }
  }

  lemma ProposalsAgree(e: Env, f: Env, last: Day, sym: Symbol, day: Day, total: real)
    requires Twins(e, f, last) && day <= last && day in e.loader.tradingDates
    ensures Propose(e, sym, day, total) == Propose(f, sym, day, total)
  {
    PricesAgree(e, f, last, sym, day);
    FirstDateAgrees(e.loader, f.loader, last, day);
    LookupsAgree(e.loader, f.loader, last, sym, day, Earliest(e.loader, day));
  }

  lemma {:induction false} SignalsAgree(e: Env, f: Env, last: Day, book: Book, symbols: seq<Symbol>, day: Day,
                                        total: real)
    requires Twins(e, f, last) && day <= last && day in e.loader.tradingDates
    ensures GenerateAll(e, book, symbols, day, total) == GenerateAll(f, book, symbols, day, total)
    decreases |symbols|
  {
    if symbols != [] {
      ProposalsAgree(e, f, last, symbols[0], day, total);
      SignalsAgree(e, f, last, Generate(e, book, symbols[0], day, total), symbols[1..], day, total);
    }
  }

  lemma {:induction false} UnrealizedAgrees(e: Env, f: Env, last: Day, day: Day, keys: seq<Symbol>,
                                            vals: map<Symbol, PositionRecord>)
    requires Twins(e, f, last) && day <= last && forall k :: k in keys ==> k in vals
    ensures Unrealized(e.loader, day, keys, vals) == Unrealized(f.loader, day, keys, vals)
    decreases |keys|
  {
    if keys != [] {
      PricesAgree(e, f, last, vals[keys[0]].symbol, day);
      assert ProfitAt(e.loader, day, vals[keys[0]]) == ProfitAt(f.loader, day, vals[keys[0]]);
      UnrealizedAgrees(e, f, last, day, keys[1..], vals);
    }
  }

  lemma ScannedAgrees(e: Env, f: Env, last: Day, sim: Sim, day: Day)
    requires Twins(e, f, last) && day <= last
    ensures Scanned(e, sim, day) == Scanned(f, sim, day) && DayScan(e, sim, day) == DayScan(f, sim, day)
  {
    MarkAgrees(e, f, last, ResetDay(sim), day);
    var marked := MarkTo(e, ResetDay(sim), day);
    ScanAgrees(e, f, last, day, marked.book.positions.keys, marked.book.positions.vals,
               Scan(marked.book.highest, [], false));
  }

  lemma EndOfDayAgrees(e: Env, f: Env, last: Day, sim: Sim, day: Day)
    requires Twins(e, f, last) && day <= last && day in e.loader.tradingDates
    ensures RecordSnapshot(e, GenerateSignals(e, sim, day), day) == RecordSnapshot(f, GenerateSignals(f, sim, day), day)
  {
    SignalsAgree(e, f, last, sim.book, e.config.symbols, day, TotalValue(sim.account));
    var generated := GenerateSignals(e, sim, day);
    assert generated == GenerateSignals(f, sim, day);
    UnrealizedAgrees(e, f, last, day, generated.book.positions.keys, generated.book.positions.vals);
    assert SnapshotOf(e, generated, day) == SnapshotOf(f, generated, day);
  }

  lemma DayAgrees(e: Env, f: Env, last: Day, sim: Sim, day: Day)
    requires Twins(e, f, last) && day <= last && day in e.loader.tradingDates && Sound(sim)
    ensures RunDay(e, sim, day) == RunDay(f, sim, day)
  {
    DayPhases(e, sim, day);
    DayPhases(f, sim, day);
    ScannedAgrees(e, f, last, sim, day);
    ScannedSound(e, sim, day);
    var exits := DayScan(e, sim, day).exits;
    ExitsAgree(e, f, last, Scanned(e, sim, day), exits, day);
    ExitsSound(e, Scanned(e, sim, day), exits, day);
    var exited := ExecuteExits(e, Scanned(e, sim, day), exits, day).sim;
    EntriesAgree(e, f, last, TakePending(exited), exited.book.pending, day);
    EndOfDayAgrees(e, f, last, EnterAll(e, TakePending(exited), exited.book.pending, day), day);
  }

  lemma {:induction false} DaysAgree(e: Env, f: Env, last: Day, sim: Sim, days: seq<Day>)
    requires Twins(e, f, last) && Sound(sim)
    requires forall day :: day in days ==> day <= last && day in e.loader.tradingDates
    ensures RunDays(e, sim, days) == RunDays(f, sim, days)
    decreases |days|
  {
    if days != [] {
      assert days[0] in days && forall d :: d in days[1..] ==> d in days;
      DayAgrees(e, f, last, sim, days[0]);
      DaySound(e, sim, days[0]);
      if !RunDay(e, sim, days[0]).raised {
        DaysAgree(e, f, last, RunDay(e, sim, days[0]).sim, days[1..]);
      }
    }
  }

  // ---- The days up to T are the first days of the whole run ----

  function DatesThrough(env: Env, last: Day): seq<Day> {
    DatesBetween(env.loader.tradingDates, env.config.start, MinInt(env.config.end, last))
  }

  lemma {:induction false} NoDatesLeft(days: seq<Day>, first: Day, last: Day)
    requires forall d :: d in days ==> d > last
    ensures DatesBetween(days, first, last) == []
  {
    if days != [] {
      assert days[0] in days && forall d :: d in days[1..] ==> d in days;
      NoDatesLeft(days[1..], first, last);
    }
  }

  lemma {:induction false} DatesPrefix(days: seq<Day>, first: Day, mid: Day, last: Day)
    requires Increasing(days) && mid <= last
    ensures DatesBetween(days, first, mid) <= DatesBetween(days, first, last)
  {
    if days != [] {
      DatesPrefix(days[1..], first, mid, last);
      if days[0] > mid {
        NoDatesLeft(days, first, mid);
      }
    }
  }

  lemma TradesOnlyGrow(env: Env, sim: Sim, days: seq<Day>)
    requires Sound(sim)
    ensures sim.book.trades <= RunDays(env, sim, days).sim.book.trades
  {
    var grown := (s: Sim) => sim.book.trades <= s.book.trades;
    assert Kept(env, grown);
    DaysKeep(env, grown, sim, days);
  }

  /** The state of a run after its trading dates up to and including `last`. */
  function StateThrough(env: Env, account: Account, last: Day): Step {
    RunDays(env, Start(env, account), DatesThrough(env, last))
  }

  /** The whole main loop passes through the state after day T, and only adds trades to it. */
  lemma LoopPassesThrough(env: Env, account: Account, last: Day)
    requires Increasing(env.loader.tradingDates)
    ensures var mid := StateThrough(env, account, last);
            && DatesThrough(env, last) <= RunDates(env)
            && MainLoop(env, account) ==
                 (if mid.raised then mid else RunDays(env, mid.sim, RunDates(env)[|DatesThrough(env, last)|..]))
            && mid.sim.book.trades <= MainLoop(env, account).sim.book.trades
  {
    var start := Start(env, account);
    var all, prefix := RunDates(env), DatesThrough(env, last);
    DatesPrefix(env.loader.tradingDates, env.config.start, MinInt(env.config.end, last), env.config.end);
    assert all == prefix + all[|prefix|..];
    RunDaysAppend(env, start, prefix, all[|prefix|..]);
    DaysSound(env, start, prefix);
    var mid := StateThrough(env, account, last);
    if !mid.raised {
      TradesOnlyGrow(env, mid.sim, all[|prefix|..]);
    }
  }

  /**
    No look-ahead: after day T the engine's book and the broker's account are the same under both histories, and the
    trades made so far begin both final ledgers.
  */
  lemma NoLookAhead(e: Env, f: Env, last: Day, account: Account)
    requires Twins(e, f, last)
    ensures DatesThrough(e, last) == DatesThrough(f, last)
    ensures StateThrough(e, account, last) == StateThrough(f, account, last)
    ensures StateThrough(e, account, last).sim.book.trades <= MainLoop(e, account).sim.book.trades
    ensures StateThrough(e, account, last).sim.book.trades <= MainLoop(f, account).sim.book.trades
  {
    AgreeShorter(e.loader, f.loader, last, MinInt(e.config.end, last));
    DatesAgree(e.loader, f.loader, MinInt(e.config.end, last), e.config.start);
    DaysAgree(e, f, last, Start(e, account), DatesThrough(e, last));
    LoopPassesThrough(e, account, last);
    LoopPassesThrough(f, account, last);
  }

  lemma AgreeShorter(h: Loader, k: Loader, last: Day, sooner: Day)
    requires AgreeThrough(h, k, last) && sooner <= last
    ensures AgreeThrough(h, k, sooner)
  {
    forall sym ensures Through(Rows(h, sym), sooner) == Through(Rows(k, sym), sooner) {
      ThroughTwice(Rows(h, sym), last, sooner);
      ThroughTwice(Rows(k, sym), last, sooner);
    }
  }

  lemma {:induction false} ThroughTwice(rows: seq<Row>, last: Day, sooner: Day)
    requires sooner <= last
    ensures Through(Through(rows, last), sooner) == Through(rows, sooner)
  {
    if rows != [] {
      ThroughTwice(rows[1..], last, sooner);
      if rows[0].date <= last {
        assert Through(rows, last)[1..] == Through(rows[1..], last);
      }
    }
  }
}
