/**
  What every step of the day loop keeps, over every run. `Sound` says that the engine's book is well formed and
  that the broker holds at least what the engine believes it holds; it needs no assumption about the broker's
  account at the start of the run. `Kept` collects the atomic steps of a day, so that any further invariant is
  proved one step at a time and then holds over whole runs (`MainLoopKeeps`).
*/
module Invariants {
  import opened Wrappers
  import opened Decimals
  import opened Dicts
  import opened Enums
  import opened MarketData
  import opened ExitRules
  import opened Simulator
  import opened Backtest
  import Sizing

  ghost predicate PendingDistinct(pending: seq<Signal>) {
    forall i, j :: 0 <= i < j < |pending| ==> pending[i].symbol != pending[j].symbol
  }

  ghost predicate RecordSound(sym: Symbol, pos: PositionRecord) {
    pos.symbol == sym && pos.entryPrice != 0.0 && pos.avgCost == pos.entryPrice && pos.status == RecordStatus.Open
  }

  /** Pending symbols are distinct and not held; high-water marks are kept for exactly the held symbols. */
  ghost predicate BookSound(b: Book) {
    && (forall sym :: sym in b.positions.vals ==> RecordSound(sym, b.positions.vals[sym]))
    && b.highest.Keys == b.positions.vals.Keys
    && PendingDistinct(b.pending)
    && (forall i :: 0 <= i < |b.pending| ==>
          b.pending[i].symbol !in b.positions.vals && b.pending[i].action == SignalAction.Buy
            && b.pending[i].quantity > 0)
  }

  /** The broker holds at least the engine's quantity of every symbol in the engine's book. */
  ghost predicate Covered(sim: Sim) {
    forall sym :: sym in sim.book.positions.vals ==> Held(sim.account, sym) >= sim.book.positions.vals[sym].quantity
  }

  ghost predicate Sound(sim: Sim) {
    BookSound(sim.book) && Covered(sim)
  }

  ghost predicate OnDay(sim: Sim, day: Day) {
    sim.account.currentDate == Some(day)
  }

  function WithHighest(sim: Sim, highest: map<Symbol, real>): Sim {
    sim.(book := sim.book.(highest := highest))
  }

  // ---- The effect of the atomic steps ----

  /** The fee of closing a position at a price. */
  function ExitFee(env: Env, pos: PositionRecord, close: real): real {
    Commission(env.costs, OrderSide.Sell, Amount(close, pos.quantity))
  }

  /** `next` is `sim` after the position in `sym` was sold at the close of the day for a reason. */
  ghost predicate Exited(env: Env, sim: Sim, next: Sim, sym: Symbol, day: Day, reason: ExitReason) {
    && sym in sim.book.positions.vals && sym in sim.account.positions.vals && GetClose(env.loader, sym, day).Some?
    && var pos := sim.book.positions.vals[sym];
       var close := GetClose(env.loader, sym, day).value;
       var fee := ExitFee(env, pos, close);
       var held := sim.account.positions.vals[sym];
       && pos.quantity <= held.quantity
       && next.account.cash == sim.account.cash + (Amount(close, pos.quantity) - fee)
       && next.account.realizedPnl == sim.account.realizedPnl + Amount(close - held.averageCost, pos.quantity)
       && next.account.positions == Put(sim.account.positions, sym, ReducedBy(held, pos.quantity, close))
       && next.account.currentDate == sim.account.currentDate
       && |next.account.orders| == |sim.account.orders| + 1
       && next.account.orders == sim.account.orders + [next.account.orders[|sim.account.orders|]]
       && next.account.orders[|sim.account.orders|].commission == fee
       && next.book == BookClosed(sim.book, sym, close, day, Because(reason), fee)
                         .(trades := sim.book.trades + [ExitTrade(pos, sym, close, day, reason, fee)])
  }

  /** `next` is `sim` after the signal was bought at today's open. */
  ghost predicate Entered(env: Env, sim: Sim, next: Sim, signal: Signal, n: Shares, open: real, day: Day) {
    var fill := SlippagePrice(env.costs, OrderSide.Buy, open);
    var fee := Commission(env.costs, OrderSide.Buy, Amount(fill, n));
    && signal.symbol !in sim.book.positions.vals && open > 0.0 && n <= signal.quantity
    && |sim.book.positions.keys| < env.settings.maxPositions && sim.book.dailyTrades < env.settings.maxDailyTrades
    && GetOpen(env.loader, signal.symbol, day) == Some(open)
    && Amount(fill, n) + fee <= sim.account.cash
    && next.account.cash == sim.account.cash - (Amount(fill, n) + fee)
    && next.account.realizedPnl == sim.account.realizedPnl
    && next.account.positions == Put(sim.account.positions, signal.symbol,
         if Held(sim.account, signal.symbol) > 0 then AddedTo(sim.account.positions.vals[signal.symbol], n, fill)
         else NewPosition(signal.symbol, n, fill, day))
    && next.account.currentDate == sim.account.currentDate
    && |next.account.orders| == |sim.account.orders| + 1
    && next.account.orders == sim.account.orders + [next.account.orders[|sim.account.orders|]]
    && next.account.orders[|sim.account.orders|].commission == fee
    && next.book == BookEntered(env, sim.book, signal, n, fill, open, fee, day)
  }

  /** A step that touches neither the account nor positions, closed positions and trades. */
  ghost predicate Quiet(sim: Sim, next: Sim) {
    && next.account == sim.account && next.book.positions == sim.book.positions
    && next.book.closed == sim.book.closed && next.book.trades == sim.book.trades
  }

  /** The sale of a covered position is never refused, so only "backtest_end" can raise. */
  lemma ExitAccepted(env: Env, sim: Sim, sym: Symbol, day: Day)
    requires Covered(sim) && OnDay(sim, day) && sym in sim.book.positions.vals && GetClose(env.loader, sym, day).Some?
    ensures var pos := sim.book.positions.vals[sym];
            var close := GetClose(env.loader, sym, day).value;
            var r := Place(env.loader, env.costs, sim.account, ExitOrder(pos, sym, close));
            && r.Success?
            && r.value.0.positions
               == Put(sim.account.positions, sym, ReducedBy(sim.account.positions.vals[sym], pos.quantity, close))
            && r.value.1.commission == ExitFee(env, pos, close)
            && r.value.0.currentDate == Some(day)
  {
    assert Held(sim.account, sym) > 0;
  }

  lemma ExitHasEffect(env: Env, sim: Sim, sym: Symbol, day: Day, reason: ExitReason)
    requires Covered(sim) && OnDay(sim, day)
    ensures var r := ExecuteExit(env, sim, sym, day, Because(reason));
            && !r.raised
            && if sym in sim.book.positions.vals && GetClose(env.loader, sym, day).Some?
               then Exited(env, sim, r.sim, sym, day, reason)
               else r.sim == sim
  {
    if sym in sim.book.positions.vals && GetClose(env.loader, sym, day).Some? {
      ExitAccepted(env, sim, sym, day);
    }
  }

  /** Closing at the end of the run sells all the same, but then always raises. */
  lemma ForcedExitRaises(env: Env, sim: Sim, sym: Symbol, day: Day)
    requires Covered(sim) && OnDay(sim, day)
    ensures var r := ExecuteExit(env, sim, sym, day, BacktestEnd);
            && (r.raised <==> sym in sim.book.positions.vals && GetClose(env.loader, sym, day).Some?)
            && (!r.raised ==> r.sim == sim)
  {
    if sym in sim.book.positions.vals && GetClose(env.loader, sym, day).Some? {
      ExitAccepted(env, sim, sym, day);
    }
  }

  lemma FillHasEffect(env: Env, sim: Sim, signal: Signal, day: Day)
    requires OnDay(sim, day) && EntryFill(env, sim, signal, day).Some?
    ensures var f := EntryFill(env, sim, signal, day).value;
            Entered(env, sim, Enter(env, sim, signal, day), signal, f.quantity, f.open, day)
  {
  }

  lemma HeldAfterExit(env: Env, sim: Sim, next: Sim, sym: Symbol, day: Day, reason: ExitReason)
    requires Exited(env, sim, next, sym, day, reason)
    ensures Held(next.account, sym) == Held(sim.account, sym) - sim.book.positions.vals[sym].quantity
    ensures forall other :: other != sym ==> Held(next.account, other) == Held(sim.account, other)
  {
  }

  lemma HeldAfterEntry(env: Env, sim: Sim, next: Sim, signal: Signal, n: Shares, open: real, day: Day)
    requires Entered(env, sim, next, signal, n, open, day)
    ensures Held(next.account, signal.symbol) == Held(sim.account, signal.symbol) + n
    ensures forall other :: other != signal.symbol ==> Held(next.account, other) == Held(sim.account, other)
  {
  }

  lemma HeldAfterMark(env: Env, sim: Sim, day: Day)
    ensures forall sym :: Held(MarkTo(env, sim, day).account, sym) == Held(sim.account, sym)
  {
  }

  // ---- The atomic steps keep Sound ----

  lemma MarkKeepsSound(env: Env, sim: Sim, day: Day)
    requires Sound(sim)
    ensures Sound(MarkTo(env, sim, day)) && OnDay(MarkTo(env, sim, day), day)
  {
    HeldAfterMark(env, sim, day);
  }

  lemma ExitedKeepsSound(env: Env, sim: Sim, next: Sim, sym: Symbol, day: Day, reason: ExitReason)
    requires Sound(sim) && Exited(env, sim, next, sym, day, reason)
    ensures Sound(next) && next.book.pending == sim.book.pending
  {
    HeldAfterExit(env, sim, next, sym, day, reason);
  }

  lemma EnteredKeepsSound(env: Env, sim: Sim, next: Sim, signal: Signal, n: Shares, open: real, day: Day)
    requires Sound(sim) && sim.book.pending == [] && Entered(env, sim, next, signal, n, open, day)
    ensures Sound(next) && next.book.pending == []
  {
    HeldAfterEntry(env, sim, next, signal, n, open, day);
    var price := EntryPrice(SlippagePrice(env.costs, OrderSide.Buy, open), open);
    var pos := EntryRecord(env, sim.book, signal, n, price, day);
    assert RecordSound(signal.symbol, pos);
    assert next.book.positions.vals == sim.book.positions.vals[signal.symbol := pos];
  }

  lemma ExitKeepsSound(env: Env, sim: Sim, sym: Symbol, day: Day, reason: ExitReason)
    requires Sound(sim) && OnDay(sim, day)
    ensures var r := ExecuteExit(env, sim, sym, day, Because(reason));
            && !r.raised && Sound(r.sim) && OnDay(r.sim, day) && r.sim.book.pending == sim.book.pending
            && (r.sim == sim || Exited(env, sim, r.sim, sym, day, reason))
            && (r.sim == sim <==> sym !in sim.book.positions.vals || GetClose(env.loader, sym, day).None?)
  {
    var next := ExecuteExit(env, sim, sym, day, Because(reason)).sim;
    ExitHasEffect(env, sim, sym, day, reason);
    if Exited(env, sim, next, sym, day, reason) {
      ExitedKeepsSound(env, sim, next, sym, day, reason);
    }
  }

  lemma EnterKeepsSound(env: Env, sim: Sim, signal: Signal, day: Day)
    requires Sound(sim) && OnDay(sim, day) && sim.book.pending == []
    ensures var r := Enter(env, sim, signal, day);
            && Sound(r) && OnDay(r, day) && r.book.pending == []
            && (r == sim || exists n: Shares, open: real :: Entered(env, sim, r, signal, n, open, day))
  {
    if EntryFill(env, sim, signal, day).Some? {
      var f := EntryFill(env, sim, signal, day).value;
      FillHasEffect(env, sim, signal, day);
      EnteredKeepsSound(env, sim, Enter(env, sim, signal, day), signal, f.quantity, f.open, day);
    }
  }

  lemma ProposeSound(env: Env, sym: Symbol, day: Day, total: real)
    ensures var p := Propose(env, sym, day, total);
            p.Some? ==> p.value.symbol == sym && p.value.action == SignalAction.Buy && p.value.quantity > 0
  {
  }

  lemma GenerateKeepsSound(env: Env, book: Book, sym: Symbol, day: Day, total: real)
    requires BookSound(book)
    ensures BookSound(Generate(env, book, sym, day, total))
    ensures var r := Generate(env, book, sym, day, total); r == book.(pending := r.pending)
  {
    ProposeSound(env, sym, day, total);
  }

  lemma {:induction false} GenerateAllKeepsSound(env: Env, book: Book, symbols: seq<Symbol>, day: Day, total: real)
    requires BookSound(book)
    ensures var r := GenerateAll(env, book, symbols, day, total); BookSound(r) && r == book.(pending := r.pending)
    decreases |symbols|
  {
    if symbols != [] {
      GenerateKeepsSound(env, book, symbols[0], day, total);
      GenerateAllKeepsSound(env, Generate(env, book, symbols[0], day, total), symbols[1..], day, total);
    }
  }

  // ---- The exit scan ----

  lemma {:induction false} ScanShape(env: Env, day: Day, keys: seq<Symbol>, vals: map<Symbol, PositionRecord>,
                                     scan: Scan)
    requires forall k :: k in keys ==> k in vals && k in scan.highest
    ensures ScanAll(env, day, keys, vals, scan).highest.Keys == scan.highest.Keys
    decreases |keys|
  {
    if keys != [] && !scan.raised {
      ScanShape(env, day, keys[1..], vals, ScanOne(env, day, keys[0], vals[keys[0]], scan));
    }
  }

  /** The state of a day after the mark and the exit scan, just before the exits are executed. */
  function Scanned(env: Env, sim: Sim, day: Day): Sim {
    var marked := MarkTo(env, ResetDay(sim), day);
    WithHighest(marked, ScanBook(env, day, marked.book).highest)
  }

  function DayScan(env: Env, sim: Sim, day: Day): Scan {
    ScanBook(env, day, MarkTo(env, ResetDay(sim), day).book)
  }

  lemma ScannedSound(env: Env, sim: Sim, day: Day)
    requires Sound(sim)
    ensures Sound(Scanned(env, sim, day)) && OnDay(Scanned(env, sim, day), day)
    ensures Quiet(MarkTo(env, ResetDay(sim), day), Scanned(env, sim, day))
  {
    MarkKeepsSound(env, ResetDay(sim), day);
    ScanShape(env, day, sim.book.positions.keys, sim.book.positions.vals, Scan(sim.book.highest, [], false));
  }

  // ---- Invariants over whole runs ----

  /** I is kept by every kind of step of a day, from every sound state. */
  ghost predicate Kept(env: Env, I: Sim -> bool) {
    && (forall sim, next {:trigger Quiet(sim, next)} :: Sound(sim) && I(sim) && Quiet(sim, next) ==> I(next))
    && (forall sim, day {:trigger MarkTo(env, sim, day)} :: Sound(sim) && I(sim) ==> I(MarkTo(env, sim, day)))
    && (forall sim, next, sym, day, reason {:trigger Exited(env, sim, next, sym, day, reason)} ::
          Sound(sim) && I(sim) && OnDay(sim, day) && Exited(env, sim, next, sym, day, reason) ==> I(next))
    && (forall sim, next, signal, n, open, day {:trigger Entered(env, sim, next, signal, n, open, day)} ::
          Sound(sim) && I(sim) && OnDay(sim, day) && Entered(env, sim, next, signal, n, open, day) ==> I(next))
  }

  lemma {:induction false} ExitsKeep(env: Env, I: Sim -> bool, sim: Sim, exits: seq<(Symbol, ExitReason)>, day: Day)
    requires Kept(env, I) && Sound(sim) && I(sim) && OnDay(sim, day)
    ensures var r := ExecuteExits(env, sim, exits, day);
            !r.raised && Sound(r.sim) && I(r.sim) && OnDay(r.sim, day) && r.sim.book.pending == sim.book.pending
    decreases |exits|
  {
    if exits != [] {
      var (sym, reason) := exits[0];
      ExitKeepsSound(env, sim, sym, day, reason);
      ExitsKeep(env, I, ExecuteExit(env, sim, sym, day, Because(reason)).sim, exits[1..], day);
    }
  }

  lemma {:induction false} EntriesKeep(env: Env, I: Sim -> bool, sim: Sim, signals: seq<Signal>, day: Day)
    requires Kept(env, I) && Sound(sim) && I(sim) && OnDay(sim, day) && sim.book.pending == []
    ensures var r := EnterAll(env, sim, signals, day); Sound(r) && I(r) && OnDay(r, day) && r.book.pending == []
    decreases |signals|
  {
    if signals != [] {
      EnterKeepsSound(env, sim, signals[0], day);
      EntriesKeep(env, I, Enter(env, sim, signals[0], day), signals[1..], day);
    }
  }

  /** The phases of a day that did not raise, one after the other. */
  lemma DayPhases(env: Env, sim: Sim, day: Day)
    ensures var exited := ExecuteExits(env, Scanned(env, sim, day), DayScan(env, sim, day).exits, day);
            var entered := EnterAll(env, TakePending(exited.sim), exited.sim.book.pending, day);
            var r := RunDay(env, sim, day);
            && (DayScan(env, sim, day).raised ==> r == Step(Scanned(env, sim, day), true))
            && (!DayScan(env, sim, day).raised && exited.raised ==> r == exited)
            && (!DayScan(env, sim, day).raised && !exited.raised ==>
                  r == Step(RecordSnapshot(env, GenerateSignals(env, entered, day), day), false))
  {
  }

  /** What remains of a day once the entries are done. */
  lemma EndOfDay(env: Env, sim: Sim, day: Day)
    requires Sound(sim)
    ensures var r := RecordSnapshot(env, GenerateSignals(env, sim, day), day);
            && Sound(r) && Quiet(sim, r) && r.book.highest == sim.book.highest
            && r.book.snapshots == sim.book.snapshots + [SnapshotOf(env, GenerateSignals(env, sim, day), day)]
  {
    GenerateAllKeepsSound(env, sim.book, env.config.symbols, day, TotalValue(sim.account));
  }

  lemma ScanKeeps(env: Env, I: Sim -> bool, sim: Sim, day: Day)
    requires Kept(env, I) && Sound(sim) && I(sim)
    ensures Sound(Scanned(env, sim, day)) && I(Scanned(env, sim, day)) && OnDay(Scanned(env, sim, day), day)
  {
    ScannedSound(env, sim, day);
    assert Quiet(sim, ResetDay(sim));
    MarkKeepsSound(env, ResetDay(sim), day);
    assert I(MarkTo(env, ResetDay(sim), day));
  }

  lemma TradingKeeps(env: Env, I: Sim -> bool, sim: Sim, day: Day)
    requires Kept(env, I) && Sound(sim) && I(sim) && OnDay(sim, day)
    ensures var r := EnterAll(env, TakePending(sim), sim.book.pending, day); Sound(r) && I(r)
  {
    assert Quiet(sim, TakePending(sim));
    EntriesKeep(env, I, TakePending(sim), sim.book.pending, day);
  }

  lemma DayKeeps(env: Env, I: Sim -> bool, sim: Sim, day: Day)
    requires Kept(env, I) && Sound(sim) && I(sim)
    ensures Sound(RunDay(env, sim, day).sim) && I(RunDay(env, sim, day).sim)
    ensures RunDay(env, sim, day).raised <==> DayScan(env, sim, day).raised
  {
    DayPhases(env, sim, day);
    ScanKeeps(env, I, sim, day);
    if !DayScan(env, sim, day).raised {
      ExitsKeep(env, I, Scanned(env, sim, day), DayScan(env, sim, day).exits, day);
      var exited := ExecuteExits(env, Scanned(env, sim, day), DayScan(env, sim, day).exits, day).sim;
      TradingKeeps(env, I, exited, day);
      EndOfDay(env, EnterAll(env, TakePending(exited), exited.book.pending, day), day);
    }
  }

  lemma {:induction false} DaysKeep(env: Env, I: Sim -> bool, sim: Sim, days: seq<Day>)
    requires Kept(env, I) && Sound(sim) && I(sim)
    ensures Sound(RunDays(env, sim, days).sim) && I(RunDays(env, sim, days).sim)
    decreases |days|
  {
    if days != [] {
      DayKeeps(env, I, sim, days[0]);
      if !RunDay(env, sim, days[0]).raised {
        DaysKeep(env, I, RunDay(env, sim, days[0]).sim, days[1..]);
      }
    }
  }

  /** Running days is running the first part and then, unless that raised, the rest. */
  lemma {:induction false} RunDaysAppend(env: Env, sim: Sim, a: seq<Day>, b: seq<Day>)
    ensures var r := RunDays(env, sim, a);
            RunDays(env, sim, a + b) == if r.raised then r else RunDays(env, r.sim, b)
    decreases |a|
  {
    if a == [] {
      assert a + b == b;
    } else {
      assert (a + b)[0] == a[0] && (a + b)[1..] == a[1..] + b;
      if !RunDay(env, sim, a[0]).raised {
        RunDaysAppend(env, RunDay(env, sim, a[0]).sim, a[1..], b);
      }
    }
  }

  lemma OneDay(env: Env, sim: Sim, day: Day)
    ensures RunDays(env, sim, [day]) == RunDay(env, sim, day)
  {
    assert RunDays(env, RunDay(env, sim, day).sim, [day][1..]) == Step(RunDay(env, sim, day).sim, false);
  }

  /** The start of a run: a fresh book over whatever account the broker has. */
  function Start(env: Env, account: Account): (sim: Sim)
    ensures Sound(sim)
  {
    Sim(FreshBook(env.config.initialCapital), account)
  }

  // ---- Soundness alone ----

  ghost predicate Anything(sim: Sim) { true }

  lemma ExitsSound(env: Env, sim: Sim, exits: seq<(Symbol, ExitReason)>, day: Day)
    requires Sound(sim) && OnDay(sim, day)
    ensures var r := ExecuteExits(env, sim, exits, day);
            !r.raised && Sound(r.sim) && OnDay(r.sim, day) && r.sim.book.pending == sim.book.pending
  {
    assert Kept(env, Anything);
    ExitsKeep(env, Anything, sim, exits, day);
  }

  lemma EntriesSound(env: Env, sim: Sim, signals: seq<Signal>, day: Day)
    requires Sound(sim) && OnDay(sim, day) && sim.book.pending == []
    ensures Sound(EnterAll(env, sim, signals, day)) && OnDay(EnterAll(env, sim, signals, day), day)
  {
    assert Kept(env, Anything);
    EntriesKeep(env, Anything, sim, signals, day);
  }

  lemma DaySound(env: Env, sim: Sim, day: Day)
    requires Sound(sim)
    ensures Sound(RunDay(env, sim, day).sim)
    ensures RunDay(env, sim, day).raised <==> DayScan(env, sim, day).raised
  {
    assert Kept(env, Anything);
    DayKeeps(env, Anything, sim, day);
  }

  /**
    At every day boundary of every run, whatever the broker held before it: pending symbols are distinct and not held,
    marks are kept for exactly the held symbols, and the broker holds at least the engine's quantities.
  */
  lemma {:induction false} DaysSound(env: Env, sim: Sim, days: seq<Day>)
    requires Sound(sim)
    ensures Sound(RunDays(env, sim, days).sim)
  {
    assert Kept(env, Anything);
    DaysKeep(env, Anything, sim, days);
  }

  lemma SplitLast(days: seq<Day>)
    requires days != []
    ensures days == days[..|days| - 1] + [days[|days| - 1]]
  {
  }

  lemma LastOfRun(env: Env, sim: Sim, all: seq<Day>, days: seq<Day>, day: Day)
    requires all == days + [day] && !RunDays(env, sim, all).raised
    ensures var before := RunDays(env, sim, days);
            !before.raised && RunDays(env, sim, all) == RunDay(env, before.sim, day)
  {
    RunDaysAppend(env, sim, days, [day]);
    OneDay(env, RunDays(env, sim, days).sim, day);
  }

  /** The last day of a run that does not raise, after all the others. */
  lemma LastDayOfRun(env: Env, sim: Sim, days: seq<Day>)
    requires days != [] && !RunDays(env, sim, days).raised
    ensures var before := RunDays(env, sim, days[..|days| - 1]);
            !before.raised && RunDays(env, sim, days) == RunDay(env, before.sim, days[|days| - 1])
  {
    SplitLast(days);
    LastOfRun(env, sim, days, days[..|days| - 1], days[|days| - 1]);
  }

  /** A day that does not raise: the state after its exits, and after its entries. */
  lemma TradingDay(env: Env, sim: Sim, day: Day) returns (exited: Sim, entered: Sim)
    requires Sound(sim) && !RunDay(env, sim, day).raised
    ensures Sound(Scanned(env, sim, day)) && OnDay(Scanned(env, sim, day), day)
    ensures exited == ExecuteExits(env, Scanned(env, sim, day), DayScan(env, sim, day).exits, day).sim
    ensures Sound(exited) && OnDay(exited, day) && exited.book.pending == sim.book.pending
    ensures entered == EnterAll(env, TakePending(exited), sim.book.pending, day)
    ensures Sound(entered) && OnDay(entered, day) && entered.book.pending == []
    ensures RunDay(env, sim, day).sim == RecordSnapshot(env, GenerateSignals(env, entered, day), day)
    ensures Quiet(entered, RunDay(env, sim, day).sim)
  {
    DayPhases(env, sim, day);
    DaySound(env, sim, day);
    ScannedSound(env, sim, day);
    ExitsSound(env, Scanned(env, sim, day), DayScan(env, sim, day).exits, day);
    exited := ExecuteExits(env, Scanned(env, sim, day), DayScan(env, sim, day).exits, day).sim;
    assert Kept(env, Anything);
    EntriesKeep(env, Anything, TakePending(exited), exited.book.pending, day);
    entered := EnterAll(env, TakePending(exited), exited.book.pending, day);
    EndOfDay(env, entered, day);
  }
}
