/**
  Laws of one trading day and what they add up to over a run: trades of a symbol alternate, a symbol trades at most
  once a day, the exit scan misses nothing, and high-water marks are the highest close since entry.
*/
module DayLaws {
  import opened Wrappers
  import opened Decimals
  import opened Dicts
  import opened Enums
  import opened MarketData
  import opened ExitRules
  import opened Simulator
  import opened Backtest
  import opened Invariants
  import Reconciliation

  // ---- Alternation ----

  /** The ledger entries of one symbol, in order. */
  function Entries(trades: seq<TradeRecord>, sym: Symbol): seq<TradeRecord> {
    if trades == [] then []
    else
      var last := trades[|trades| - 1];
      Entries(trades[..|trades| - 1], sym) + if last.symbol == sym then [last] else []
  }

  lemma EntriesAppend(trades: seq<TradeRecord>, t: TradeRecord, sym: Symbol)
    ensures Entries(trades + [t], sym) == Entries(trades, sym) + if t.symbol == sym then [t] else []
  {
    assert (trades + [t])[..|trades|] == trades;
  }

  /** BUY q, SELL q, BUY r, SELL r, ... */
  ghost predicate Alternates(es: seq<TradeRecord>) {
    && (forall i :: 0 <= i < |es| ==> es[i].side == if i % 2 == 0 then OrderSide.Buy else OrderSide.Sell)
    && (forall i :: 0 < i < |es| && i % 2 == 1 ==> es[i].quantity == es[i - 1].quantity)
  }

  /** Every symbol's entries alternate; the symbol is held exactly when the last one is a buy, in that quantity. */
  ghost predicate Alternating(sim: Sim) {
    forall sym :: AlternatingFor(sim, sym)
  }

  ghost predicate AlternatingFor(sim: Sim, sym: Symbol) {
    var es := Entries(sim.book.trades, sym);
    && Alternates(es)
    && (sym in sim.book.positions.vals <==> |es| % 2 == 1)
    && (sym in sim.book.positions.vals ==> es[|es| - 1].quantity == sim.book.positions.vals[sym].quantity)
  }

  lemma AppendTrade(es: seq<TradeRecord>, t: TradeRecord)
    requires Alternates(es)
    requires t.side == if |es| % 2 == 0 then OrderSide.Buy else OrderSide.Sell
    requires |es| % 2 == 1 ==> t.quantity == es[|es| - 1].quantity
    ensures Alternates(es + [t]) && |es + [t]| % 2 == 1 - |es| % 2
  {
  }

  /** One more trade that opens an unheld symbol or closes a held one in its quantity. */
  lemma TradeAlternates(sim: Sim, next: Sim, t: TradeRecord)
    requires Alternating(sim) && next.book.trades == sim.book.trades + [t]
    requires var was, now := sim.book.positions.vals, next.book.positions.vals;
             && (forall other :: other != t.symbol && other in now ==> other in was && now[other] == was[other])
             && (forall other :: other != t.symbol && other in was ==> other in now)
             && (if t.side == OrderSide.Buy
                 then t.symbol !in was && t.symbol in now && now[t.symbol].quantity == t.quantity
                 else t.symbol in was && was[t.symbol].quantity == t.quantity && t.symbol !in now)
    ensures Alternating(next)
  {
    forall other ensures AlternatingFor(next, other) {
      EntriesAppend(sim.book.trades, t, other);
      assert AlternatingFor(sim, other);
      if other == t.symbol {
        AppendTrade(Entries(sim.book.trades, other), t);
      }
    }
  }

  lemma ExitAlternates(env: Env, sim: Sim, next: Sim, sym: Symbol, day: Day, reason: ExitReason)
    requires Alternating(sim) && Exited(env, sim, next, sym, day, reason)
    ensures Alternating(next)
  {
    TradeAlternates(sim, next, next.book.trades[|sim.book.trades|]);
  }

  lemma EntryAlternates(env: Env, sim: Sim, next: Sim, signal: Signal, n: Shares, open: real, day: Day)
    requires Alternating(sim) && Entered(env, sim, next, signal, n, open, day)
    ensures Alternating(next)
  {
    TradeAlternates(sim, next, next.book.trades[|sim.book.trades|]);
  }

  lemma QuietAlternates(sim: Sim, next: Sim)
    requires Alternating(sim) && next.book.positions == sim.book.positions && next.book.trades == sim.book.trades
    ensures Alternating(next)
  {
    forall sym ensures AlternatingFor(next, sym) { assert AlternatingFor(sim, sym); }
  }

  lemma AlternatingKept(env: Env)
    ensures Kept(env, Alternating)
  {
    forall sim, next, sym, day, reason | Alternating(sim) && Exited(env, sim, next, sym, day, reason)
      ensures Alternating(next)
    {
      ExitAlternates(env, sim, next, sym, day, reason);
    }
    forall sim, next, signal, n, open, day | Alternating(sim) && Entered(env, sim, next, signal, n, open, day)
      ensures Alternating(next)
    {
      EntryAlternates(env, sim, next, signal, n, open, day);
    }
    forall sim, next | Alternating(sim) && Quiet(sim, next) ensures Alternating(next) {
      QuietAlternates(sim, next);
    }
    forall sim, day | Alternating(sim) ensures Alternating(MarkTo(env, sim, day)) {
      QuietAlternates(sim, MarkTo(env, sim, day));
    }
  }

  /** Whatever the broker held before, the ledger of every symbol alternates BUY q, SELL q. */
  lemma {:induction false} LedgerAlternates(env: Env, account: Account, days: seq<Day>, sym: Symbol)
    ensures AlternatingFor(RunDays(env, Start(env, account), days).sim, sym)
  {
    AlternatingKept(env);
    assert Alternating(Start(env, account));
    DaysKeep(env, Alternating, Start(env, account), days);
  }

  // ---- At most one trade per symbol and day ----

  ghost predicate OncePerDay(trades: seq<TradeRecord>) {
    forall i, j :: 0 <= i < j < |trades| && trades[i].symbol == trades[j].symbol ==> trades[i].date < trades[j].date
  }

  ghost predicate DatedUpTo(trades: seq<TradeRecord>, day: Day) {
    forall i :: 0 <= i < |trades| ==> trades[i].date <= day
  }

  ghost predicate TradedOn(trades: seq<TradeRecord>, sym: Symbol, day: Day) {
    exists i :: 0 <= i < |trades| && trades[i].symbol == sym && trades[i].date == day
  }

  lemma AppendOnce(trades: seq<TradeRecord>, t: TradeRecord)
    requires OncePerDay(trades) && DatedUpTo(trades, t.date) && !TradedOn(trades, t.symbol, t.date)
    ensures OncePerDay(trades + [t]) && DatedUpTo(trades + [t], t.date)
    ensures forall sym :: TradedOn(trades + [t], sym, t.date) <==> TradedOn(trades, sym, t.date) || sym == t.symbol
  {
    var all := trades + [t];
    forall sym ensures TradedOn(all, sym, t.date) <==> TradedOn(trades, sym, t.date) || sym == t.symbol {
      if sym == t.symbol { assert all[|trades|] == t; }
      if TradedOn(trades, sym, t.date) {
        var i :| 0 <= i < |trades| && trades[i].symbol == sym && trades[i].date == t.date;
        assert all[i] == trades[i];
      }
    }
  }

  /** During the exits of a day: what traded today was held in the morning and is gone now. */
  lemma {:induction false} ExitsTradeOnce(env: Env, sim: Sim, exits: seq<(Symbol, ExitReason)>, day: Day,
                                          held: set<Symbol>)
    requires Sound(sim) && OnDay(sim, day)
    requires OncePerDay(sim.book.trades) && DatedUpTo(sim.book.trades, day)
    requires forall sym :: sym in sim.book.positions.vals ==> sym in held && !TradedOn(sim.book.trades, sym, day)
    requires forall sym :: TradedOn(sim.book.trades, sym, day) ==> sym in held
    ensures var r := ExecuteExits(env, sim, exits, day).sim;
            && OncePerDay(r.book.trades) && DatedUpTo(r.book.trades, day)
            && (forall sym :: TradedOn(r.book.trades, sym, day) ==> sym in held)
    decreases |exits|
  {
    if exits != [] {
      var (sym, reason) := exits[0];
      var next := ExecuteExit(env, sim, sym, day, Because(reason)).sim;
      ExitKeepsSound(env, sim, sym, day, reason);
      if next != sim {
        AppendOnce(sim.book.trades, next.book.trades[|sim.book.trades|]);
      }
      ExitsTradeOnce(env, next, exits[1..], day, held);
    }
  }

  lemma {:induction false} EntriesTradeOnce(env: Env, sim: Sim, signals: seq<Signal>, day: Day)
    requires Sound(sim) && OnDay(sim, day) && sim.book.pending == []
    requires OncePerDay(sim.book.trades) && DatedUpTo(sim.book.trades, day)
    requires PendingDistinct(signals)
    requires forall i :: 0 <= i < |signals| ==> !TradedOn(sim.book.trades, signals[i].symbol, day)
    ensures var r := EnterAll(env, sim, signals, day);
            OncePerDay(r.book.trades) && DatedUpTo(r.book.trades, day)
    decreases |signals|
  {
    if signals != [] {
      var next := Enter(env, sim, signals[0], day);
      EnterKeepsSound(env, sim, signals[0], day);
      if next != sim {
        AppendOnce(sim.book.trades, next.book.trades[|sim.book.trades|]);
      }
      EntriesTradeOnce(env, next, signals[1..], day);
    }
  }

  lemma DayTradesOnce(env: Env, sim: Sim, day: Day, before: Day)
    requires Sound(sim) && OncePerDay(sim.book.trades) && DatedUpTo(sim.book.trades, before) && before < day
    ensures var r := RunDay(env, sim, day).sim; OncePerDay(r.book.trades) && DatedUpTo(r.book.trades, day)
  {
    DayPhases(env, sim, day);
    ScannedSound(env, sim, day);
    var scanned := Scanned(env, sim, day);
    var exits := DayScan(env, sim, day).exits;
    if !DayScan(env, sim, day).raised {
      ExitsTradeOnce(env, scanned, exits, day, sim.book.positions.vals.Keys);
      ExitsSound(env, scanned, exits, day);
      TradingOnce(env, ExecuteExits(env, scanned, exits, day).sim, day);
    }
  }

  lemma TradingOnce(env: Env, sim: Sim, day: Day)
    requires Sound(sim) && OnDay(sim, day) && OncePerDay(sim.book.trades) && DatedUpTo(sim.book.trades, day)
    requires forall i :: 0 <= i < |sim.book.pending| ==> !TradedOn(sim.book.trades, sim.book.pending[i].symbol, day)
    ensures var entered := EnterAll(env, TakePending(sim), sim.book.pending, day);
            var r := RecordSnapshot(env, GenerateSignals(env, entered, day), day);
            OncePerDay(r.book.trades) && DatedUpTo(r.book.trades, day)
  {
    EntriesTradeOnce(env, TakePending(sim), sim.book.pending, day);
    EntriesSound(env, TakePending(sim), sim.book.pending, day);
    EndOfDay(env, EnterAll(env, TakePending(sim), sim.book.pending, day), day);
  }

  lemma {:induction false} DaysTradeOnce(env: Env, sim: Sim, days: seq<Day>, before: Day)
    requires Sound(sim) && OncePerDay(sim.book.trades) && DatedUpTo(sim.book.trades, before)
    requires Increasing(days) && (days != [] ==> before < days[0])
    ensures OncePerDay(RunDays(env, sim, days).sim.book.trades)
    decreases |days|
  {
    if days != [] {
      DayTradesOnce(env, sim, days[0], before);
      if !RunDay(env, sim, days[0]).raised {
        DaySound(env, sim, days[0]);
        DaysTradeOnce(env, RunDay(env, sim, days[0]).sim, days[1..], days[0]);
      }
    }
  }

  /** In the main loop a symbol has at most one trade a day: it is never both sold and bought on one day. */
  lemma NoSameDayRoundTrip(env: Env, account: Account)
    requires Increasing(env.loader.tradingDates)
    ensures OncePerDay(MainLoop(env, account).sim.book.trades)
  {
    var days := RunDates(env);
    DatesBetweenIncreasing(env.loader.tradingDates, env.config.start, env.config.end);
    DaysTradeOnce(env, Start(env, account), days,
                  if days == [] then 0 else days[0] - 1);
  }

  // ---- The exit scan is complete ----

  /** No exit condition holds: above the stop, below the target, within the limit, trailing stop not hit. */
  ghost predicate Untriggered(pos: PositionRecord, close: real, highest: real, today: Day)
    requires pos.entryPrice != 0.0
  {
    && close > pos.stopLoss
    && (pos.takeProfit.Some? ==> close < pos.takeProfit.value)
    && (pos.maxDays.Some? ==> today - pos.entryDate < pos.maxDays.value)
    && (pos.trailingPct.Some? && PctOf(close - pos.entryPrice, pos.entryPrice) >= pos.trailingPct.value ==>
          close > highest * (1.0 - pos.trailingPct.value / 100.0))
  }

  lemma NoExitMeansUntriggered(pos: PositionRecord, close: real, highest: real, today: Day)
    requires pos.entryPrice != 0.0 && ExitDecision(pos, close, highest, today).Success?
    ensures ExitDecision(pos, close, highest, today).value.None? <==> Untriggered(pos, close, highest, today)
  {
  }

  ghost predicate TrailingHit(pos: PositionRecord, close: real, highest: real)
    requires pos.entryPrice != 0.0
  {
    && pos.trailingPct.Some? && PctOf(close - pos.entryPrice, pos.entryPrice) >= pos.trailingPct.value
    && close <= highest * (1.0 - pos.trailingPct.value / 100.0)
  }

  /** The reason is the first that applies: stop loss, then trailing stop, then target, then holding time. */
  lemma ExitReasonIsFirst(pos: PositionRecord, close: real, highest: real, today: Day)
    requires pos.entryPrice != 0.0 && ExitDecision(pos, close, highest, today).Success?
    ensures var stop := close <= pos.stopLoss;
            var trailing := TrailingHit(pos, close, highest);
            var target := pos.takeProfit.Some? && close >= pos.takeProfit.value;
            var expired := pos.maxDays.Some? && today - pos.entryDate >= pos.maxDays.value;
            var reason := ExitDecision(pos, close, highest, today).value;
            && (reason == Some(ExitReason.StopLoss) <==> stop)
            && (reason == Some(ExitReason.TrailingStop) <==> !stop && trailing)
            && (reason == Some(ExitReason.TakeProfit) <==> !stop && !trailing && target)
            && (reason == Some(ExitReason.TimeBased) <==> !stop && !trailing && !target && expired)
  {
  }

  /** What the scan of the remaining keys leaves for one key. */
  lemma {:induction false} ScanFinds(env: Env, day: Day, keys: seq<Symbol>, vals: map<Symbol, PositionRecord>,
                                     scan: Scan, sym: Symbol)
    requires Distinct(keys) && forall k :: k in keys ==> k in vals && k in scan.highest
    requires !scan.raised && !ScanAll(env, day, keys, vals, scan).raised
    requires sym in vals && sym in scan.highest
    ensures var r := ScanAll(env, day, keys, vals, scan);
            var close := GetClose(env.loader, sym, day);
            && sym in r.highest
            && (sym !in keys || close.None? ==>
                  r.highest[sym] == scan.highest[sym] && (forall e :: e in r.exits && e.0 == sym ==> e in scan.exits))
            && (forall e :: e in scan.exits ==> e in r.exits)
            && (sym in keys && close.Some? ==>
                  && r.highest[sym] == Max(scan.highest[sym], close.value)
                  && ExitDecision(vals[sym], close.value, r.highest[sym], day).Success?
                  && (var reason := ExitDecision(vals[sym], close.value, r.highest[sym], day).value;
                      && (reason.Some? ==> (sym, reason.value) in r.exits)
                      && (reason.None? ==> forall e :: e in r.exits && e.0 == sym ==> e in scan.exits)))
    decreases |keys|
  {
    if keys != [] {
      var next := ScanOne(env, day, keys[0], vals[keys[0]], scan);
      ScanRaisedStays(env, day, keys[1..], vals, next);
      ScanFinds(env, day, keys[1..], vals, next, sym);
    }
  }

  lemma ScanRaisedStays(env: Env, day: Day, keys: seq<Symbol>, vals: map<Symbol, PositionRecord>, scan: Scan)
    requires forall k :: k in keys ==> k in vals
    ensures scan.raised ==> ScanAll(env, day, keys, vals, scan).raised
  {
  }

  /** Executing the exits removes exactly the listed symbols that have a bar and leaves the rest untouched. */
  lemma {:induction false} ExitsRemove(env: Env, sim: Sim, exits: seq<(Symbol, ExitReason)>, day: Day, sym: Symbol)
    requires Sound(sim) && OnDay(sim, day) && sym in sim.book.positions.vals
    ensures var r := ExecuteExits(env, sim, exits, day).sim.book;
            && (sym in r.positions.vals <==>
                  GetClose(env.loader, sym, day).None? || forall e :: e in exits ==> e.0 != sym)
            && (sym in r.positions.vals ==>
                  sym in r.highest && r.positions.vals[sym] == sim.book.positions.vals[sym]
                    && r.highest[sym] == sim.book.highest[sym])
    decreases |exits|
  {
    if exits != [] {
      var (s, reason) := exits[0];
      var next := ExecuteExit(env, sim, s, day, Because(reason)).sim;
      ExitKeepsSound(env, sim, s, day, reason);
      assert forall e :: e in exits <==> e == exits[0] || e in exits[1..];
      if sym in next.book.positions.vals {
        ExitsRemove(env, next, exits[1..], day, sym);
      } else {
        ExitsAddNothing(env, next, exits[1..], day, sym);
      }
    }
  }

  lemma {:induction false} ExitsAddNothing(env: Env, sim: Sim, exits: seq<(Symbol, ExitReason)>, day: Day, sym: Symbol)
    requires Sound(sim) && OnDay(sim, day) && sym !in sim.book.positions.vals
    ensures sym !in ExecuteExits(env, sim, exits, day).sim.book.positions.vals
    decreases |exits|
  {
    if exits != [] {
      var (s, reason) := exits[0];
      var next := ExecuteExit(env, sim, s, day, Because(reason)).sim;
      ExitKeepsSound(env, sim, s, day, reason);
      ExitsAddNothing(env, next, exits[1..], day, sym);
    }
  }

  /**
    The exit check of a day that does not raise: a held symbol is still held afterwards exactly when it has no bar
    or nothing triggers at the close; its record is unchanged and its mark is raised to the close.
  */
  lemma ExitScanComplete(env: Env, sim: Sim, day: Day, sym: Symbol)
    requires Sound(sim) && OnDay(sim, day) && !CheckExits(env, sim, day).raised && sym in sim.book.positions.vals
    ensures var r := CheckExits(env, sim, day).sim.book;
            var pos := sim.book.positions.vals[sym];
            var close := GetClose(env.loader, sym, day);
            var high := if close.None? then sim.book.highest[sym] else Max(sim.book.highest[sym], close.value);
            && (sym in r.positions.vals <==> close.None? || Untriggered(pos, close.value, high, day))
            && (sym in r.positions.vals ==> sym in r.highest && r.positions.vals[sym] == pos && r.highest[sym] == high)
  {
    var scan := ScanBook(env, day, sim.book);
    var start := Scan(sim.book.highest, [], false);
    ScanShape(env, day, sim.book.positions.keys, sim.book.positions.vals, start);
    ScanFinds(env, day, sim.book.positions.keys, sim.book.positions.vals, start, sym);
    ExitsRemove(env, WithHighest(sim, scan.highest), scan.exits, day, sym);
    var close := GetClose(env.loader, sym, day);
    if close.Some? {
      NoExitMeansUntriggered(sim.book.positions.vals[sym], close.value, scan.highest[sym], day);
    }
  }

  /** The exit check opens nothing. */
  lemma CheckExitsOpensNothing(env: Env, sim: Sim, day: Day, sym: Symbol)
    requires Sound(sim) && OnDay(sim, day) && sym !in sim.book.positions.vals
    ensures sym !in CheckExits(env, sim, day).sim.book.positions.vals
  {
    var scan := ScanBook(env, day, sim.book);
    ScanShape(env, day, sim.book.positions.keys, sim.book.positions.vals, Scan(sim.book.highest, [], false));
    ExitsAddNothing(env, WithHighest(sim, scan.highest), scan.exits, day, sym);
  }
}
