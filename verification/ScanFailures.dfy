/** When the main loop raises: exactly where an exit scan prices a trailing stop from a value that is not positive. */
module ScanFailures {
  import opened Wrappers
  import opened Decimals
  import opened Dicts
  import opened Enums
  import opened MarketData
  import opened ExitRules
  import opened Simulator
  import opened Backtest
  import opened Invariants
  import Accounting

  /**
    A position above its stop whose trailing stop is armed, with a mark or a percentage that is not positive: pricing
    the trailing stop raises.
  */
  ghost predicate CannotTrail(pos: PositionRecord, close: real, mark: real)
    requires pos.entryPrice != 0.0
  {
    && close > pos.stopLoss && pos.trailingPct.Some?
    && PctOf(close - pos.entryPrice, pos.entryPrice) >= pos.trailingPct.value
    && (Max(mark, close) <= 0.0 || pos.trailingPct.value <= 0.0)
  }

  ghost predicate FailsOn(env: Env, book: Book, sym: Symbol, day: Day)
    requires BookSound(book) && sym in book.positions.vals
  {
    && GetClose(env.loader, sym, day).Some?
    && CannotTrail(book.positions.vals[sym], GetClose(env.loader, sym, day).value, book.highest[sym])
  }

  lemma {:induction false} ScanRaises(env: Env, day: Day, keys: seq<Symbol>, vals: map<Symbol, PositionRecord>,
                                      scan: Scan)
    requires Distinct(keys) && !scan.raised
    requires forall k :: k in keys ==> k in vals && k in scan.highest && vals[k].entryPrice != 0.0
    ensures ScanAll(env, day, keys, vals, scan).raised <==>
              exists k :: k in keys && GetClose(env.loader, k, day).Some?
                          && CannotTrail(vals[k], GetClose(env.loader, k, day).value, scan.highest[k])
    decreases |keys|
  {
    if keys != [] {
      var next := ScanOne(env, day, keys[0], vals[keys[0]], scan);
      assert forall k :: k in keys <==> k == keys[0] || k in keys[1..];
      if !next.raised {
        assert forall k :: k in keys[1..] ==> k != keys[0] && k in next.highest && next.highest[k] == scan.highest[k];
        ScanRaises(env, day, keys[1..], vals, next);
      }
    }
  }

  /** A day raises exactly when some held symbol fails on it. */
  lemma DayRaises(env: Env, sim: Sim, day: Day)
    requires Sound(sim)
    ensures RunDay(env, sim, day).raised <==>
              exists sym :: sym in sim.book.positions.vals && FailsOn(env, sim.book, sym, day)
  {
    DaySound(env, sim, day);
    ScanRaises(env, day, sim.book.positions.keys, sim.book.positions.vals, Scan(sim.book.highest, [], false));
  }

  /** The days before the i-th ran through, and on the i-th some held symbol fails. */
  ghost predicate StopsAt(env: Env, sim: Sim, days: seq<Day>, i: int)
    requires Sound(sim) && 0 <= i < |days|
  {
    var before := RunDays(env, sim, days[..i]);
    && !before.raised && BookSound(before.sim.book)
    && exists sym :: sym in before.sim.book.positions.vals && FailsOn(env, before.sim.book, sym, days[i])
  }

  lemma StopsLater(env: Env, sim: Sim, days: seq<Day>, i: int)
    requires Sound(sim) && 0 < i < |days| && !RunDay(env, sim, days[0]).raised && Sound(RunDay(env, sim, days[0]).sim)
    ensures StopsAt(env, sim, days, i) <==> StopsAt(env, RunDay(env, sim, days[0]).sim, days[1..], i - 1)
  {
    assert days[..i][0] == days[0] && days[..i][1..] == days[1..][..i - 1];
  }

  /** The main loop raises exactly on the first day on which a held symbol fails. */
  lemma {:induction false} DaysRaise(env: Env, sim: Sim, days: seq<Day>)
    requires Sound(sim)
    ensures RunDays(env, sim, days).raised <==> exists i :: 0 <= i < |days| && StopsAt(env, sim, days, i)
    decreases |days|
  {
    if days != [] {
      var first := RunDay(env, sim, days[0]);
      StopsFirst(env, sim, days);
      if !first.raised {
        DaySound(env, sim, days[0]);
        DaysRaise(env, first.sim, days[1..]);
        StopsShift(env, sim, days);
      }
    }
  }

  lemma StopsFirst(env: Env, sim: Sim, days: seq<Day>)
    requires Sound(sim) && days != []
    ensures StopsAt(env, sim, days, 0) <==> RunDay(env, sim, days[0]).raised
  {
    DayRaises(env, sim, days[0]);
    assert RunDays(env, sim, days[..0]) == Step(sim, false);
  }

  lemma StopsShift(env: Env, sim: Sim, days: seq<Day>)
    requires Sound(sim) && days != [] && !RunDay(env, sim, days[0]).raised && Sound(RunDay(env, sim, days[0]).sim)
    ensures var first := RunDay(env, sim, days[0]).sim;
            (exists i :: 0 <= i < |days| && StopsAt(env, sim, days, i)) <==>
              exists j :: 0 <= j < |days| - 1 && StopsAt(env, first, days[1..], j)
  {
    var first := RunDay(env, sim, days[0]).sim;
    StopsFirst(env, sim, days);
    forall i | 0 < i < |days| ensures StopsAt(env, sim, days, i) <==> StopsAt(env, first, days[1..], i - 1) {
      StopsLater(env, sim, days, i);
    }
    forall j | 0 <= j < |days| - 1 ensures StopsAt(env, first, days[1..], j) <==> StopsAt(env, sim, days, j + 1) {
      StopsLater(env, sim, days, j + 1);
    }
  }

  // ---- Configurations under which it never does ----

  /** Where there are trailing stops, they trail by a positive percentage and fills are not negative. */
  ghost predicate SaneTrailing(env: Env) {
    env.config.strategy == PositionTrading ==> env.config.trailingStopPct > 0.0 && env.costs.slippageBps >= -10000
  }

  ghost predicate PositiveEntries(env: Env, sim: Sim) {
    forall sym :: sym in sim.book.positions.vals ==>
      var pos := sim.book.positions.vals[sym];
      pos.trailingPct.Some? ==> pos.trailingPct.value > 0.0 && pos.entryPrice > 0.0
  }

  lemma EntryPositive(env: Env, open: real)
    requires env.costs.slippageBps >= -10000 && open > 0.0
    ensures EntryPrice(SlippagePrice(env.costs, OrderSide.Buy, open), open) > 0.0
  {
    ScaledSign(open, env.costs.slippageBps as real / 10000.0);
  }

  lemma PositiveEntriesKept(env: Env)
    requires SaneTrailing(env)
    ensures Kept(env, (sim: Sim) => PositiveEntries(env, sim))
  {
    forall sim, next, signal, n, open, day | PositiveEntries(env, sim) && Entered(env, sim, next, signal, n, open, day)
      ensures PositiveEntries(env, next)
    {
      if env.config.strategy == PositionTrading { EntryPositive(env, open); }
    }
  }

  /** An armed trailing stop means a close above a positive entry price. */
  lemma ArmedIsPositive(pos: PositionRecord, close: real, mark: real)
    requires pos.entryPrice != 0.0
    requires pos.trailingPct.Some? ==> pos.trailingPct.value > 0.0 && pos.entryPrice > 0.0
    ensures !CannotTrail(pos, close, mark)
  {
    if pos.trailingPct.Some? && close <= pos.entryPrice {
      DivSign(pos.entryPrice - close, pos.entryPrice);
      DivMonotone(close - pos.entryPrice, 0.0, pos.entryPrice);
    }
  }

  /** From any account the main loop then runs through every trading date. */
  lemma {:induction false} SaneRunsThrough(env: Env, account: Account, days: seq<Day>)
    requires SaneTrailing(env)
    ensures !RunDays(env, Start(env, account), days).raised
  {
    var start := Start(env, account);
    DaysRaise(env, start, days);
    forall i | 0 <= i < |days| ensures !StopsAt(env, start, days, i) {
      NoStop(env, start, days, i);
    }
  }

  lemma NoStop(env: Env, sim: Sim, days: seq<Day>, i: int)
    requires SaneTrailing(env) && Sound(sim) && PositiveEntries(env, sim) && 0 <= i < |days|
    ensures !StopsAt(env, sim, days, i)
  {
    PositiveEntriesKept(env);
    DaysKeep(env, (s: Sim) => PositiveEntries(env, s), sim, days[..i]);
    var before := RunDays(env, sim, days[..i]).sim;
    forall sym | sym in before.book.positions.vals ensures !FailsOn(env, before.book, sym, days[i]) {
      if GetClose(env.loader, sym, days[i]).Some? {
        ArmedIsPositive(before.book.positions.vals[sym], GetClose(env.loader, sym, days[i]).value,
                        before.book.highest[sym]);
      }
    }
  }
}
