/** The trailing-stop marks: at the end of every day each is the highest close since entry. */
module HighWater {
  import opened Wrappers
  import opened Decimals
  import opened Dicts
  import opened Enums
  import opened MarketData
  import opened ExitRules
  import opened Simulator
  import opened Backtest
  import opened Invariants
  import DayLaws

  /** The maximum of the entry price and all closes on bars after `from` up to `to`. */
  ghost function HighSince(rows: seq<Row>, entry: real, from: Day, to: Day): real {
    if rows == [] then entry
    else
      var rest := HighSince(rows[1..], entry, from, to);
      if from < rows[0].date <= to then Max(rest, rows[0].close) else rest
  }

  lemma {:induction false} HighSinceIsMaximum(rows: seq<Row>, entry: real, from: Day, to: Day)
    ensures var high := HighSince(rows, entry, from, to);
            && entry <= high
            && (forall row :: row in rows && from < row.date <= to ==> row.close <= high)
            && (high == entry || exists row :: row in rows && from < row.date <= to && row.close == high)
  {
    if rows != [] {
      HighSinceIsMaximum(rows[1..], entry, from, to);
      assert forall row :: row in rows <==> row == rows[0] || row in rows[1..];
    }
  }

  /** Nothing counts on the day of entry itself. */
  lemma {:induction false} HighOnEntryDay(rows: seq<Row>, entry: real, day: Day)
    ensures HighSince(rows, entry, day, day) == entry
  {
    if rows != [] {
      HighOnEntryDay(rows[1..], entry, day);
    }
  }

  lemma {:induction false} HighUnchanged(rows: seq<Row>, entry: real, from: Day, to: Day, next: Day)
    requires to < next && forall row :: row in rows ==> !(to < row.date <= next)
    ensures HighSince(rows, entry, from, next) == HighSince(rows, entry, from, to)
  {
    if rows != [] {
      assert rows[0] in rows;
      HighUnchanged(rows[1..], entry, from, to, next);
    }
  }

  /** From one day to the next, only the bar of that next day counts. */
  lemma {:induction false} HighExtends(rows: seq<Row>, entry: real, from: Day, to: Day, next: Day)
    requires RowsIncreasing(rows) && from <= to < next
    requires forall row :: row in rows ==> !(to < row.date < next)
    ensures HighSince(rows, entry, from, next) ==
              match Find(rows, next)
              case None => HighSince(rows, entry, from, to)
              case Some(row) => Max(HighSince(rows, entry, from, to), row.close)
  {
    if rows != [] {
      assert rows[0] in rows;
      if rows[0].date == next {
        forall row | row in rows[1..] ensures !(to < row.date <= next) {
          assert row.date > next;
        }
        HighUnchanged(rows[1..], entry, from, to, next);
      } else {
        HighExtends(rows[1..], entry, from, to, next);
      }
    }
  }

  ghost predicate MarksAreHighs(env: Env, sim: Sim, day: Day) {
    forall sym :: sym in sim.book.positions.vals ==> MarkIsHigh(env, sim.book, sym, day)
  }

  ghost predicate MarkIsHigh(env: Env, book: Book, sym: Symbol, day: Day)
    requires sym in book.positions.vals
  {
    var pos := book.positions.vals[sym];
    && pos.entryDate <= day
    && sym in book.highest
    && book.highest[sym] == HighSince(Rows(env.loader, sym), pos.entryPrice, pos.entryDate, day)
  }

  /** No trading date lies strictly between two days. */
  ghost predicate Adjacent(loader: Loader, day: Day, next: Day) {
    day < next && forall d :: d in loader.tradingDates ==> !(day < d < next)
  }

  lemma NoBarsBetween(loader: Loader, sym: Symbol, day: Day, next: Day)
    requires IsHistory(loader) && Adjacent(loader, day, next)
    ensures forall row :: row in Rows(loader, sym) ==> !(day < row.date < next)
  {
    forall row | row in Rows(loader, sym) ensures !(day < row.date < next) {
      var i :| 0 <= i < |loader.data[sym]| && loader.data[sym][i] == row;
      assert HasBar(loader, row.date);
    }
  }

  lemma ScanExtendsMarks(env: Env, sim: Sim, last: Day, day: Day)
    requires IsHistory(env.loader) && Adjacent(env.loader, last, day)
    requires Sound(sim) && OnDay(sim, day) && MarksAreHighs(env, sim, last) && !CheckExits(env, sim, day).raised
    ensures MarksAreHighs(env, CheckExits(env, sim, day).sim, day)
  {
    var r := CheckExits(env, sim, day).sim;
    forall sym | sym in r.book.positions.vals ensures MarkIsHigh(env, r.book, sym, day) {
      if sym !in sim.book.positions.vals {
        DayLaws.CheckExitsOpensNothing(env, sim, day, sym);
      } else {
        DayLaws.ExitScanComplete(env, sim, day, sym);
        assert MarkIsHigh(env, sim.book, sym, last);
        NoBarsBetween(env.loader, sym, last, day);
        var pos := sim.book.positions.vals[sym];
        HighExtends(Rows(env.loader, sym), pos.entryPrice, pos.entryDate, last, day);
      }
    }
  }

  lemma EnteredMarks(env: Env, sim: Sim, next: Sim, signal: Signal, n: Shares, open: real, day: Day)
    requires MarksAreHighs(env, sim, day) && Entered(env, sim, next, signal, n, open, day)
    ensures MarksAreHighs(env, next, day)
  {
    forall sym | sym in next.book.positions.vals ensures MarkIsHigh(env, next.book, sym, day) {
      if sym == signal.symbol {
        HighOnEntryDay(Rows(env.loader, sym), next.book.positions.vals[sym].entryPrice, day);
      } else {
        assert MarkIsHigh(env, sim.book, sym, day);
      }
    }
  }

  lemma {:induction false} EnterAllMarks(env: Env, sim: Sim, signals: seq<Signal>, day: Day)
    requires Sound(sim) && OnDay(sim, day) && sim.book.pending == [] && MarksAreHighs(env, sim, day)
    ensures MarksAreHighs(env, EnterAll(env, sim, signals, day), day)
    decreases |signals|
  {
    if signals != [] {
      var next := Enter(env, sim, signals[0], day);
      EnterKeepsSound(env, sim, signals[0], day);
      if next != sim {
        var n, open :| Entered(env, sim, next, signals[0], n, open, day);
        EnteredMarks(env, sim, next, signals[0], n, open, day);
      }
      EnterAllMarks(env, next, signals[1..], day);
    }
  }

  /** MarksAreHighs only looks at positions and marks. */
  lemma MarksFrame(env: Env, sim: Sim, next: Sim, day: Day)
    requires MarksAreHighs(env, sim, day)
    requires next.book.positions == sim.book.positions && next.book.highest == sim.book.highest
    ensures MarksAreHighs(env, next, day)
  {
    forall sym | sym in next.book.positions.vals ensures MarkIsHigh(env, next.book, sym, day) {
      assert MarkIsHigh(env, sim.book, sym, day);
    }
  }

  lemma DayMarks(env: Env, sim: Sim, last: Day, day: Day)
    requires IsHistory(env.loader) && Adjacent(env.loader, last, day)
    requires Sound(sim) && MarksAreHighs(env, sim, last) && !RunDay(env, sim, day).raised
    ensures MarksAreHighs(env, RunDay(env, sim, day).sim, day)
  {
    var marked := MarkTo(env, ResetDay(sim), day);
    MarkKeepsSound(env, ResetDay(sim), day);
    MarksFrame(env, sim, marked, last);
    DaySound(env, sim, day);
    ScannedSound(env, sim, day);
    ExitsSound(env, Scanned(env, sim, day), DayScan(env, sim, day).exits, day);
    DayPhases(env, sim, day);
    var checked := CheckExits(env, marked, day).sim;
    assert checked == ExecuteExits(env, Scanned(env, sim, day), DayScan(env, sim, day).exits, day).sim;
    ScanExtendsMarks(env, marked, last, day);
    MarksFrame(env, checked, TakePending(checked), day);
    EnterAllMarks(env, TakePending(checked), checked.book.pending, day);
    EntriesSound(env, TakePending(checked), checked.book.pending, day);
    var entered := EnterAll(env, TakePending(checked), checked.book.pending, day);
    EndOfDay(env, entered, day);
    MarksFrame(env, entered, RunDay(env, sim, day).sim, day);
  }

  ghost predicate Successive(loader: Loader, last: Day, days: seq<Day>) {
    && (days != [] ==> Adjacent(loader, last, days[0]))
    && forall i :: 0 <= i < |days| - 1 ==> Adjacent(loader, days[i], days[i + 1])
  }

  lemma {:induction false} DaysMarks(env: Env, sim: Sim, last: Day, days: seq<Day>)
    requires IsHistory(env.loader) && Successive(env.loader, last, days)
    requires Sound(sim) && MarksAreHighs(env, sim, last) && !RunDays(env, sim, days).raised
    ensures MarksAreHighs(env, RunDays(env, sim, days).sim, if days == [] then last else days[|days| - 1])
    decreases |days|
  {
    if days != [] {
      DayMarks(env, sim, last, days[0]);
      DaySound(env, sim, days[0]);
      assert Successive(env.loader, days[0], days[1..]) by {
        assert |days| > 1 ==> days[1..][0] == days[0 + 1];
        forall i | 0 <= i < |days[1..]| - 1 ensures Adjacent(env.loader, days[1..][i], days[1..][i + 1]) {
          assert days[1..][i] == days[i + 1] && days[1..][i + 1] == days[i + 1 + 1];
        }
      }
      DaysMarks(env, RunDay(env, sim, days[0]).sim, days[0], days[1..]);
    }
  }

  lemma BetweenNeighbours(all: seq<Day>, k: int, j: int)
    requires Increasing(all) && 0 <= k < |all| - 1 && 0 <= j < |all|
    ensures !(all[k] < all[j] < all[k + 1])
  {
  }

  lemma RunDatesAdjacent(env: Env, k: int)
    requires IsHistory(env.loader) && 0 <= k < |RunDates(env)| - 1
    ensures Adjacent(env.loader, RunDates(env)[k], RunDates(env)[k + 1])
  {
    var all := RunDates(env);
    DatesBetweenIncreasing(env.loader.tradingDates, env.config.start, env.config.end);
    assert all[k] in all && all[k + 1] in all;
    forall d | d in env.loader.tradingDates ensures !(all[k] < d < all[k + 1]) {
      if d in all {
        var j :| 0 <= j < |all| && all[j] == d;
        BetweenNeighbours(all, k, j);
      }
    }
  }

  lemma RunDatesSuccessive(env: Env, i: nat)
    requires IsHistory(env.loader) && 0 < i <= |RunDates(env)|
    ensures Successive(env.loader, RunDates(env)[0] - 1, RunDates(env)[..i])
  {
    forall k | 0 <= k < i - 1 ensures Adjacent(env.loader, RunDates(env)[..i][k], RunDates(env)[..i][k + 1]) {
      RunDatesAdjacent(env, k);
    }
  }

  /**
    At the end of each day of a run, i days into it, every high-water mark is the maximum of the entry price and all
    closes on bars after the entry day, and marks are kept for exactly the held symbols.
  */
  lemma HighWaterMarks(env: Env, account: Account, i: nat)
    requires IsHistory(env.loader) && 0 < i <= |RunDates(env)|
    requires !RunDays(env, Start(env, account), RunDates(env)[..i]).raised
    ensures var sim := RunDays(env, Start(env, account), RunDates(env)[..i]).sim;
            && MarksAreHighs(env, sim, RunDates(env)[i - 1])
            && sim.book.highest.Keys == sim.book.positions.vals.Keys
  {
    var start := Start(env, account);
    var days := RunDates(env)[..i];
    assert days != [] && days[|days| - 1] == RunDates(env)[i - 1];
    RunDatesSuccessive(env, i);
    assert MarksAreHighs(env, start, RunDates(env)[0] - 1);
    DaysMarks(env, start, RunDates(env)[0] - 1, days);
    DaysSound(env, start, days);
  }
}
