/**
  Laws of whole runs about the book alone: never more positions than allowed, every closed position has its sale and
  every position its purchase in the ledger, no purchase beyond the daily number of trades, and every position carries
  the exits that were proposed at the close of the trading day before it was bought.
*/
module RunLaws {
  import opened Wrappers
  import opened Decimals
  import opened Dicts
  import opened Enums
  import opened MarketData
  import opened ExitRules
  import opened Simulator
  import opened Backtest
  import opened Invariants
  import opened EntryLaws
  import EveryStep

  // ---- Number of positions ----

  ghost predicate WithinLimit(env: Env, sim: Sim) {
    |sim.book.positions.keys| <= MaxInt(0, env.settings.maxPositions)
  }

  lemma WithinLimitKept(env: Env)
    ensures Kept(env, (sim: Sim) => WithinLimit(env, sim))
  {
  }

  /** At every state of every run there are at most as many positions as the configuration allows. */
  lemma {:induction false} NeverTooManyPositions(env: Env, account: Account, days: seq<Day>, s: Sim)
    requires s in EveryStep.RunStates(env, Start(env, account), days)
    ensures |s.book.positions.keys| <= MaxInt(0, env.settings.maxPositions)
  {
    WithinLimitKept(env);
    EveryStep.RunStatesKeep(env, (sim: Sim) => WithinLimit(env, sim), Start(env, account), days);
  }

  // ---- Sales and purchases ----

  /** The sales of a ledger, in order. */
  function Sales(trades: seq<TradeRecord>): seq<TradeRecord> {
    if trades == [] then []
    else
      var last := trades[|trades| - 1];
      Sales(trades[..|trades| - 1]) + if last.side == OrderSide.Sell then [last] else []
  }

  lemma SalesAppend(trades: seq<TradeRecord>, t: TradeRecord)
    ensures Sales(trades + [t]) == Sales(trades) + if t.side == OrderSide.Sell then [t] else []
  {
    assert (trades + [t])[..|trades|] == trades;
  }

  /** The sale that closed a position: its price, day and reason, and the profit less the commission. */
  ghost predicate SaleOf(t: TradeRecord, pos: PositionRecord) {
    && t.side == OrderSide.Sell && t.symbol == pos.symbol && t.quantity == pos.quantity && t.slippage == 0.0
    && pos.status == RecordStatus.Closed && pos.exitPrice == Some(t.price) && pos.exitDate == Some(t.date)
    && t.exitReason.Some? && pos.exitTag == Some(Because(t.exitReason.value))
    && t.pnl.Some? && t.pnl.value == (t.price - pos.avgCost) * pos.quantity as real - t.commission
    && pos.realizedPnl == t.pnl
  }

  /** The purchase that opened it. */
  ghost predicate PurchaseOf(t: TradeRecord, pos: PositionRecord) {
    && t.side == OrderSide.Buy && t.symbol == pos.symbol && t.quantity == pos.quantity && t.date == pos.entryDate
    && t.price == pos.avgCost == pos.entryPrice
  }

  ghost predicate SalesMatch(sim: Sim) {
    && |Sales(sim.book.trades)| == |sim.book.closed|
    && forall i :: 0 <= i < |sim.book.closed| ==> SaleOf(Sales(sim.book.trades)[i], sim.book.closed[i])
  }

  ghost predicate Purchased(trades: seq<TradeRecord>, pos: PositionRecord) {
    exists t :: t in trades && PurchaseOf(t, pos)
  }

  ghost predicate AllPurchased(sim: Sim) {
    && (forall pos :: pos in sim.book.closed ==> Purchased(sim.book.trades, pos))
    && (forall sym :: sym in sim.book.positions.vals ==> Purchased(sim.book.trades, sim.book.positions.vals[sym]))
  }

  lemma SaleMatches(pos: PositionRecord, sym: Symbol, close: real, day: Day, reason: ExitReason, fee: real)
    requires pos.symbol == sym
    ensures SaleOf(ExitTrade(pos, sym, close, day, reason, fee),
                   CloseRecord(pos, close, day, Because(reason), Amount(close - pos.avgCost, pos.quantity) - fee))
  {
  }

  /** The closed record is the held one with its exit filled in. */
  ghost predicate SameEntry(record: PositionRecord, pos: PositionRecord) {
    && record.id == pos.id && record.symbol == pos.symbol && record.quantity == pos.quantity
    && record.avgCost == pos.avgCost && record.entryPrice == pos.entryPrice && record.entryDate == pos.entryDate
    && record.stopLoss == pos.stopLoss && record.takeProfit == pos.takeProfit
    && record.trailingPct == pos.trailingPct && record.maxDays == pos.maxDays
  }

  /** What an exit adds to the book: the closed record and its sale, at the close of the day. */
  lemma ExitBooks(env: Env, sim: Sim, next: Sim, sym: Symbol, day: Day, reason: ExitReason)
    returns (record: PositionRecord, t: TradeRecord)
    requires BookSound(sim.book) && Exited(env, sim, next, sym, day, reason)
    ensures next.book.closed == sim.book.closed + [record] && next.book.trades == sim.book.trades + [t]
    ensures SaleOf(t, record) && SameEntry(record, sim.book.positions.vals[sym])
    ensures t.date == day && t.exitReason == Some(reason) && t.symbol == sym
    ensures GetClose(env.loader, sym, day) == Some(t.price)
    ensures next.book.positions.vals == sim.book.positions.vals - {sym}
    ensures next.book.highest == sim.book.highest - {sym} && next.book.dailyTrades == sim.book.dailyTrades + 1
    ensures record.realizedPnl.Some? && next.book.dailyPnl == sim.book.dailyPnl + record.realizedPnl.value
    ensures next.book.snapshots == sim.book.snapshots && next.book.pending == sim.book.pending
  {
    record, t := next.book.closed[|sim.book.closed|], next.book.trades[|sim.book.trades|];
    var close := GetClose(env.loader, sym, day).value;
    var pos := sim.book.positions.vals[sym];
    SaleMatches(pos, sym, close, day, reason, ExitFee(env, pos, close));
  }

  lemma ExitMatches(env: Env, sim: Sim, next: Sim, sym: Symbol, day: Day, reason: ExitReason)
    requires Sound(sim) && Exited(env, sim, next, sym, day, reason)
    ensures SalesMatch(sim) ==> SalesMatch(next)
    ensures AllPurchased(sim) ==> AllPurchased(next)
  {
    var record, t := ExitBooks(env, sim, next, sym, day, reason);
    SalesAppend(sim.book.trades, t);
    if AllPurchased(sim) {
      assert Purchased(sim.book.trades, sim.book.positions.vals[sym]);
      PurchasesStay(sim.book.trades, t);
      forall pos | pos in next.book.closed ensures Purchased(next.book.trades, pos) {
        if pos == record {
          var b :| b in sim.book.trades && PurchaseOf(b, sim.book.positions.vals[sym]);
          assert PurchaseOf(b, record);
        }
      }
    }
  }

  lemma PurchasesStay(trades: seq<TradeRecord>, t: TradeRecord)
    ensures forall pos :: Purchased(trades, pos) ==> Purchased(trades + [t], pos)
  {
    forall pos | Purchased(trades, pos) ensures Purchased(trades + [t], pos) {
      var b :| b in trades && PurchaseOf(b, pos);
      assert b in trades + [t];
    }
  }

  lemma EntryBuys(env: Env, sim: Sim, next: Sim, signal: Signal, n: Shares, open: real, day: Day)
    returns (t: TradeRecord)
    requires Entered(env, sim, next, signal, n, open, day)
    ensures next.book.trades == sim.book.trades + [t] && next.book.closed == sim.book.closed
    ensures signal.symbol in next.book.positions.vals && PurchaseOf(t, next.book.positions.vals[signal.symbol])
    ensures forall sym :: sym in next.book.positions.vals && sym != signal.symbol ==>
              sym in sim.book.positions.vals && next.book.positions.vals[sym] == sim.book.positions.vals[sym]
  {
    t := next.book.trades[|sim.book.trades|];
  }

  lemma EntryMatches(env: Env, sim: Sim, next: Sim, signal: Signal, n: Shares, open: real, day: Day)
    requires Entered(env, sim, next, signal, n, open, day)
    ensures SalesMatch(sim) ==> SalesMatch(next)
    ensures AllPurchased(sim) ==> AllPurchased(next)
  {
    var t := EntryBuys(env, sim, next, signal, n, open, day);
    SalesAppend(sim.book.trades, t);
    PurchasesStay(sim.book.trades, t);
    assert t in next.book.trades;
  }

  lemma SalesMatchKept(env: Env)
    ensures Kept(env, SalesMatch) && Kept(env, AllPurchased)
  {
    forall sim, next, sym, day, reason | Sound(sim) && Exited(env, sim, next, sym, day, reason)
      ensures (SalesMatch(sim) ==> SalesMatch(next)) && (AllPurchased(sim) ==> AllPurchased(next))
    {
      ExitMatches(env, sim, next, sym, day, reason);
    }
    forall sim, next, signal, n, open, day | Sound(sim) && Entered(env, sim, next, signal, n, open, day)
      ensures (SalesMatch(sim) ==> SalesMatch(next)) && (AllPurchased(sim) ==> AllPurchased(next))
    {
      EntryMatches(env, sim, next, signal, n, open, day);
    }
  }

  /**
    At every state of every run the sales of the ledger are those of the closed positions, one for one and in order,
    and every position, held or closed, was bought in the ledger at its cost on its day of entry.
  */
  lemma {:induction false} LedgerMatchesPositions(env: Env, account: Account, days: seq<Day>, s: Sim)
    requires s in EveryStep.RunStates(env, Start(env, account), days)
    ensures SalesMatch(s) && AllPurchased(s)
  {
    SalesMatchKept(env);
    EveryStep.RunStatesKeep(env, SalesMatch, Start(env, account), days);
    EveryStep.RunStatesKeep(env, AllPurchased, Start(env, account), days);
  }

  // ---- Trades of a day ----

  lemma {:induction false} EntriesCounted(env: Env, sim: Sim, signals: seq<Signal>, day: Day)
    ensures var b := EnterAll(env, sim, signals, day).book;
            && sim.book.trades <= b.trades
            && b.dailyTrades - sim.book.dailyTrades == |b.trades| - |sim.book.trades|
            && (b.trades != sim.book.trades ==> b.dailyTrades <= env.settings.maxDailyTrades)
    decreases |signals|
  {
    if signals != [] {
      var next := Enter(env, sim, signals[0], day);
      if next != sim {
        RiskCheckExactly(env, sim, signals[0].symbol, signals[0].quantity,
                         EntryFill(env, sim, signals[0], day).value.open);
        EntryBooks(env, sim, signals[0], day);
      }
      EntriesCounted(env, next, signals[1..], day);
    }
  }

  ghost predicate OnlySales(trades: seq<TradeRecord>) {
    forall t :: t in trades ==> t.side == OrderSide.Sell
  }

  lemma {:induction false} ExitsCounted(env: Env, sim: Sim, exits: seq<(Symbol, ExitReason)>, day: Day)
    requires Sound(sim) && OnDay(sim, day)
    ensures var b := ExecuteExits(env, sim, exits, day).sim.book;
            && sim.book.trades <= b.trades && OnlySales(b.trades[|sim.book.trades|..])
            && b.dailyTrades - sim.book.dailyTrades == |b.trades| - |sim.book.trades|
    decreases |exits|
  {
    if exits != [] {
      var (sym, reason) := exits[0];
      var next := ExecuteExit(env, sim, sym, day, Because(reason)).sim;
      ExitKeepsSound(env, sim, sym, day, reason);
      if next != sim { var record, t := ExitBooks(env, sim, next, sym, day, reason); }
      ExitsCounted(env, next, exits[1..], day);
    }
  }

  /** On a day with a purchase there are no more trades than the configuration allows for a day. */
  lemma DailyTradeLimit(env: Env, sim: Sim, day: Day)
    requires Sound(sim) && !RunDay(env, sim, day).raised
    ensures var was, now := sim.book.trades, RunDay(env, sim, day).sim.book.trades;
            && was <= now
            && (!OnlySales(now[|was|..]) ==> |now| - |was| <= env.settings.maxDailyTrades)
  {
    var exited, entered := TradingDay(env, sim, day);
    ExitsCounted(env, Scanned(env, sim, day), DayScan(env, sim, day).exits, day);
    EntriesCounted(env, TakePending(exited), sim.book.pending, day);
  }

  // ---- From proposal to position ----

  ghost predicate Proposed(env: Env, signal: Signal, day: Day, total: real) {
    Propose(env, signal.symbol, day, total) == Some(signal)
  }

  lemma {:induction false} PendingProposed(env: Env, book: Book, symbols: seq<Symbol>, day: Day, total: real)
    requires forall p :: p in book.pending ==> Proposed(env, p, day, total)
    ensures forall p :: p in GenerateAll(env, book, symbols, day, total).pending ==> Proposed(env, p, day, total)
    decreases |symbols|
  {
    if symbols != [] {
      ProposeSound(env, symbols[0], day, total);
      PendingProposed(env, Generate(env, book, symbols[0], day, total), symbols[1..], day, total);
    }
  }

  /** A proposal of the day for a configured symbol that is not held. */
  ghost predicate Wanted(env: Env, book: Book, p: Signal, day: Day, total: real) {
    p.symbol in env.config.symbols && p.symbol !in book.positions.vals && Proposed(env, p, day, total)
  }

  lemma {:induction false} PendingExactly(env: Env, book: Book, symbols: seq<Symbol>, day: Day, total: real)
    ensures var r := GenerateAll(env, book, symbols, day, total);
            && book.pending <= r.pending
            && (forall p :: p in r.pending && p !in book.pending ==>
                  p.symbol in symbols && p.symbol !in book.positions.vals && Proposed(env, p, day, total))
            && (forall p :: Proposed(env, p, day, total) && p.symbol in symbols && p.symbol !in book.positions.vals ==>
                  IsPending(r.pending, p.symbol))
            && (forall sym :: IsPending(book.pending, sym) ==> IsPending(r.pending, sym))
    decreases |symbols|
  {
    if symbols != [] {
      var next := Generate(env, book, symbols[0], day, total);
      ProposeSound(env, symbols[0], day, total);
      if next != book {
        assert next.pending[|book.pending|].symbol == symbols[0];
        forall sym | IsPending(book.pending, sym) ensures IsPending(next.pending, sym) {
          var i :| 0 <= i < |book.pending| && book.pending[i].symbol == sym;
          assert next.pending[i].symbol == sym;
        }
      }
      PendingExactly(env, next, symbols[1..], day, total);
    }
  }

  /** After a day, the pending signals are exactly its proposals for configured symbols that are not held. */
  lemma DayProposes(env: Env, sim: Sim, day: Day, p: Signal)
    requires Sound(sim) && !RunDay(env, sim, day).raised
    ensures var r := RunDay(env, sim, day).sim;
            p in r.book.pending <==> Wanted(env, r.book, p, day, TotalValue(r.account))
  {
    var exited, entered := TradingDay(env, sim, day);
    PendingExactly(env, entered.book, env.config.symbols, day, TotalValue(entered.account));
    var pending := RunDay(env, sim, day).sim.book.pending;
    if Wanted(env, RunDay(env, sim, day).sim.book, p, day, TotalValue(entered.account)) {
      var i :| 0 <= i < |pending| && pending[i].symbol == p.symbol;
      assert pending[i] in pending;
    }
  }

  /** The record was opened on this day by a signal, in no more than its quantity. */
  ghost predicate OpenedBy(env: Env, signal: Signal, day: Day, pos: PositionRecord) {
    exists fill, open :: OpensFrom(env, signal, pos.quantity, fill, open, day, pos) && pos.quantity <= signal.quantity
  }

  lemma {:induction false} EntriesOpenBy(env: Env, sim: Sim, signals: seq<Signal>, day: Day)
    ensures var now := EnterAll(env, sim, signals, day).book.positions.vals;
            forall sym :: sym in now ==>
              || (sym in sim.book.positions.vals && now[sym] == sim.book.positions.vals[sym])
              || exists signal :: signal in signals && OpenedBy(env, signal, day, now[sym])
    decreases |signals|
  {
    if signals != [] {
      var next := Enter(env, sim, signals[0], day);
      if next != sim {
        EntryBooks(env, sim, signals[0], day);
        assert OpenedBy(env, signals[0], day, next.book.positions.vals[signals[0].symbol]);
      }
      EntriesOpenBy(env, next, signals[1..], day);
      assert forall signal :: signal in signals[1..] ==> signal in signals;
    }
  }

  lemma {:induction false} ExitsKeepRecords(env: Env, sim: Sim, exits: seq<(Symbol, ExitReason)>, day: Day)
    requires Sound(sim) && OnDay(sim, day)
    ensures var now := ExecuteExits(env, sim, exits, day).sim.book.positions.vals;
            forall sym :: sym in now ==> sym in sim.book.positions.vals && now[sym] == sim.book.positions.vals[sym]
    decreases |exits|
  {
    if exits != [] {
      ExitKeepsSound(env, sim, exits[0].0, day, exits[0].1);
      ExitsKeepRecords(env, ExecuteExit(env, sim, exits[0].0, day, Because(exits[0].1)).sim, exits[1..], day);
    }
  }

  /** A day holds what it held, or what a pending signal opened; what it leaves pending is proposed at its close. */
  lemma DayOpensPending(env: Env, sim: Sim, day: Day)
    requires Sound(sim) && !RunDay(env, sim, day).raised
    ensures var was, now := sim.book.positions.vals, RunDay(env, sim, day).sim.book.positions.vals;
            forall sym :: sym in now ==>
              || (sym in was && now[sym] == was[sym])
              || exists signal :: signal in sim.book.pending && OpenedBy(env, signal, day, now[sym])
    ensures var r := RunDay(env, sim, day).sim;
            forall p :: p in r.book.pending ==> Proposed(env, p, day, TotalValue(r.account))
  {
    var exited, entered := TradingDay(env, sim, day);
    ExitsKeepRecords(env, Scanned(env, sim, day), DayScan(env, sim, day).exits, day);
    EntriesOpenBy(env, TakePending(exited), sim.book.pending, day);
    PendingProposed(env, entered.book, env.config.symbols, day, TotalValue(entered.account));
  }

  /** Opened on the j-th day by a signal that was proposed at the close of the day before. */
  ghost predicate FollowsProposal(env: Env, account: Account, days: seq<Day>, j: int, signal: Signal,
                                  pos: PositionRecord)
  {
    && 0 < j < |days| && OpenedBy(env, signal, days[j], pos)
    && Proposed(env, signal, days[j - 1], TotalValue(RunDays(env, Start(env, account), days[..j]).sim.account))
  }

  lemma FollowsLater(env: Env, account: Account, days: seq<Day>, n: nat, j: int, signal: Signal, pos: PositionRecord)
    requires n <= |days| && FollowsProposal(env, account, days[..n], j, signal, pos)
    ensures FollowsProposal(env, account, days, j, signal, pos)
  {
    assert days[..n][..j] == days[..j];
  }

  /**
    After any days of a run, every held position was opened by a signal that was proposed, on the account of that day,
    at the close of the trading day before its day of entry; nothing opens on the first day.
  */
  lemma {:induction false} PositionsFollowProposals(env: Env, account: Account, days: seq<Day>)
    requires !RunDays(env, Start(env, account), days).raised
    ensures var r := RunDays(env, Start(env, account), days).sim;
            && (forall sym :: sym in r.book.positions.vals ==>
                  exists j, signal :: FollowsProposal(env, account, days, j, signal, r.book.positions.vals[sym]))
            && (forall p :: p in r.book.pending ==>
                  days != [] && Proposed(env, p, days[|days| - 1], TotalValue(r.account)))
    decreases |days|
  {
    if days != [] {
      var n := |days| - 1;
      var before := RunDays(env, Start(env, account), days[..n]);
      LastDayOfRun(env, Start(env, account), days);
      DaysSound(env, Start(env, account), days[..n]);
      PositionsFollowProposals(env, account, days[..n]);
      DayOpensPending(env, before.sim, days[n]);
      HeldFollow(env, account, days);
    }
  }

  lemma HeldFollow(env: Env, account: Account, days: seq<Day>)
    requires days != []
    requires var n := |days| - 1;
             var before := RunDays(env, Start(env, account), days[..n]).sim;
             && Sound(before) && !RunDay(env, before, days[n]).raised
             && (forall sym :: sym in before.book.positions.vals ==>
                   exists j, signal ::
                     FollowsProposal(env, account, days[..n], j, signal, before.book.positions.vals[sym]))
             && (forall p :: p in before.book.pending ==>
                   n > 0 && Proposed(env, p, days[n - 1], TotalValue(before.account)))
    ensures var n := |days| - 1;
            var now := RunDay(env, RunDays(env, Start(env, account), days[..n]).sim, days[n]).sim.book.positions.vals;
            forall sym :: sym in now ==> exists j, signal :: FollowsProposal(env, account, days, j, signal, now[sym])
  {
    var n := |days| - 1;
    var before := RunDays(env, Start(env, account), days[..n]).sim;
    var now := RunDay(env, before, days[n]).sim.book.positions.vals;
    DayOpensPending(env, before, days[n]);
    forall sym | sym in now ensures exists j, signal :: FollowsProposal(env, account, days, j, signal, now[sym]) {
      if sym in before.book.positions.vals && now[sym] == before.book.positions.vals[sym] {
        var j, signal :| FollowsProposal(env, account, days[..n], j, signal, now[sym]);
        FollowsLater(env, account, days, n, j, signal, now[sym]);
      } else {
        var signal :| signal in before.book.pending && OpenedBy(env, signal, days[n], now[sym]);
        assert FollowsProposal(env, account, days, n, signal, now[sym]);
      }
    }
  }
}
