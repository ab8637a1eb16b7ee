/**
  What the strategy proposes and how much of it, by what it sees and what fits: the bars up to the day, exits at the
  configured distance from its close, and the largest quantity within the risk budget and the position caps.
*/
module SignalLaws {
  import opened Wrappers
  import opened Decimals
  import opened Enums
  import opened MarketData
  import opened ExitRules
  import opened Simulator
  import opened Backtest
  import opened OrderLaws
  import opened Sizing

  // ---- Sizing ----

  /** Whole shares that a value covers at a price. */
  ghost predicate Covers(value: real, price: real, n: int) {
    0 <= n && Amount(price, n) <= value < Amount(price, n + 1)
  }

  lemma UnitsCover(value: real, price: real)
    requires price > 0.0 && value >= 0.0
    ensures Covers(value, price, Units(value, price))
  {
    Threshold(Units(value, price), price, value);
    Threshold(Units(value, price) + 1, price, value);
  }

  /** n shares beside h held ones fit both position caps, and one share or the risk budget covers their risk. */
  ghost predicate Admissible(limits: Limits, entry: real, stop: real, total: real, h: int, n: int) {
    var distance := if entry < stop then stop - entry else entry - stop;
    && (n <= 1 || distance * n as real <= total * limits.riskPct / 100.0)
    && entry * (h + n) as real <= total * limits.maxPositionPct / 100.0
    && entry * (h + n) as real <= limits.maxPositionKrw
  }

  lemma QuantityUpTo(limits: Limits, entry: real, stop: real, total: real, existing: real, n: int)
    requires entry > 0.0 && entry != stop && n >= 1 && Units(existing, entry) >= 0
    ensures n <= Quantity(limits, entry, stop, total, existing) <==>
              && (n <= 1 || n <= Units(Percent(total, limits.riskPct), Abs(entry - stop)))
              && Units(existing, entry) + n <= Units(Percent(total, limits.maxPositionPct), entry)
              && Units(existing, entry) + n <= Units(limits.maxPositionKrw, entry)
  {
  }

  lemma AdmissibleAmounts(limits: Limits, entry: real, stop: real, total: real, h: int, n: int)
    ensures Admissible(limits, entry, stop, total, h, n) <==>
              && (n <= 1 || Amount(Abs(entry - stop), n) <= Percent(total, limits.riskPct))
              && Amount(entry, h + n) <= Percent(total, limits.maxPositionPct)
              && Amount(entry, h + n) <= limits.maxPositionKrw
  {
    var distance := if entry < stop then stop - entry else entry - stop;
    assert Abs(entry - stop) == distance;
  }

  lemma AdmissibleUpTo(limits: Limits, entry: real, stop: real, total: real, existing: real, n: int)
    requires entry > 0.0 && entry != stop && existing >= 0.0 && n >= 1
    ensures Admissible(limits, entry, stop, total, Units(existing, entry), n) <==>
              n <= Quantity(limits, entry, stop, total, existing)
  {
    var h := Units(existing, entry);
    UnitsCover(existing, entry);
    QuantityUpTo(limits, entry, stop, total, existing, n);
    AdmissibleAmounts(limits, entry, stop, total, h, n);
    CapsHold(limits, entry, stop, total, h, n);
  }

  lemma CapsHold(limits: Limits, entry: real, stop: real, total: real, h: int, n: int)
    requires entry > 0.0 && entry != stop && h >= 0 && n >= 1
    ensures h + n <= Units(Percent(total, limits.maxPositionPct), entry) <==>
              Amount(entry, h + n) <= Percent(total, limits.maxPositionPct)
    ensures h + n <= Units(limits.maxPositionKrw, entry) <==> Amount(entry, h + n) <= limits.maxPositionKrw
    ensures n <= Units(Percent(total, limits.riskPct), Abs(entry - stop)) <==>
              Amount(Abs(entry - stop), n) <= Percent(total, limits.riskPct)
  {
    CapIsExact(Percent(total, limits.maxPositionPct), entry, h + n);
    CapIsExact(limits.maxPositionKrw, entry, h + n);
    CapIsExact(Percent(total, limits.riskPct), Abs(entry - stop), n);
  }

  /**
    The sizer's quantity is the largest that is admissible beside the whole shares already held, with one share allowed
    whatever its risk; zero when not even that one fits the caps.
  */
  lemma SizedExactly(limits: Limits, entry: real, stop: real, total: real, existing: real, h: int)
    requires entry > 0.0 && entry != stop && existing >= 0.0 && Covers(existing, entry, h)
    ensures var q := Quantity(limits, entry, stop, total, existing);
            && q >= 0 && (q >= 1 ==> Admissible(limits, entry, stop, total, h, q))
            && forall n :: n > q ==> !Admissible(limits, entry, stop, total, h, n)
  {
    var q := Quantity(limits, entry, stop, total, existing);
    UnitsCover(existing, entry);
    CoversOne(existing, entry, h, Units(existing, entry));
    if q >= 1 { AdmissibleUpTo(limits, entry, stop, total, existing, q); }
    forall n | n > q ensures !Admissible(limits, entry, stop, total, h, n) {
      AdmissibleUpTo(limits, entry, stop, total, existing, n);
    }
  }

  lemma CoversOne(value: real, price: real, m: int, n: int)
    requires price > 0.0 && Covers(value, price, m) && Covers(value, price, n)
    ensures m == n
  {
    if m < n { AmountMonotone(price, m + 1, n); }
    if n < m { AmountMonotone(price, n + 1, m); }
  }

  lemma AmountMonotone(price: real, m: int, n: int)
    requires price > 0.0 && m <= n
    ensures Amount(price, m) <= Amount(price, n)
  {
    MulMonotone(m as real, n as real, price);
  }

  /** The reported percentages of the total and the ratio of reward to risk, in hundredths. */
  ghost predicate Reports(s: PositionSizing, entry: real, stop: real, target: Option<real>, total: real)
    requires total > 0.0 && entry != stop
  {
    && (if s.quantity > 0 then
          && NearestCent(s.riskPctOfPortfolio, s.riskAmount / total * 100.0)
          && NearestCent(s.positionPctOfPortfolio, s.positionValue / total * 100.0)
        else s.riskPctOfPortfolio == 0.0 && s.positionPctOfPortfolio == 0.0)
    && (target.None? ==> s.riskReward.None?)
    && (target.Some? ==>
          s.riskReward.Some? && NearestCent(s.riskReward.value, Abs(target.value - entry) / Abs(entry - stop)))
  }

  /** The sizer refuses prices and totals that are not positive and a stop at the entry, and reports what it sized. */
  lemma CalculateExactly(limits: Limits, sym: Symbol, entry: real, stop: real, target: Option<real>, total: real,
                         existing: real)
    ensures var r := Calculate(limits, sym, entry, stop, target, total, existing);
            && (r.Failure? <==> entry <= 0.0 || stop <= 0.0 || total <= 0.0 || entry == stop)
            && (r.Success? ==>
                  && r.value.symbol == sym && r.value.quantity == Quantity(limits, entry, stop, total, existing)
                  && r.value.positionValue == Amount(entry, r.value.quantity)
                  && r.value.riskAmount == Amount(Abs(entry - stop), r.value.quantity)
                  && Reports(r.value, entry, stop, target, total))
  {
    if entry > 0.0 && stop > 0.0 && total > 0.0 && entry != stop {
      var n := Quantity(limits, entry, stop, total, existing);
      CentsNearest(PctOf(Amount(Abs(entry - stop), n), total));
      CentsNearest(PctOf(Amount(entry, n), total));
      if target.Some? { CentsNearest(Abs(target.value - entry) / Abs(entry - stop)); }
    }
  }

  // ---- Exit prices ----

  /** Stop and target at their percentages of the entry. */
  ghost predicate AtPercentages(entry: real, stopPct: real, targetPct: real, p: ExitPrices) {
    && entry - p.stop == entry * stopPct / 100.0 && p.target - entry == entry * targetPct / 100.0
  }

  /** Stop and target at multiples of the range; a stop that is not positive is one won. */
  ghost predicate AtRange(entry: real, atr: real, stopMult: real, targetMult: real, p: ExitPrices) {
    && p.target - entry == atr * targetMult
    && (if entry > atr * stopMult then entry - p.stop == atr * stopMult else p.stop == 1.0)
  }

  lemma FixedExactly(entry: real, stopPct: real, targetPct: real)
    ensures var r := FixedPercentage(entry, stopPct, targetPct);
            && (r.Failure? <==> entry <= 0.0 || stopPct < 0.0 || targetPct < 0.0)
            && (r.Success? ==> AtPercentages(entry, stopPct, targetPct, r.value))
  {
    ShareOf(entry, stopPct);
    ShareOf(entry, targetPct);
  }

  lemma ShareOf(base: real, pct: real)
    ensures base * (1.0 - pct / 100.0) == base - base * pct / 100.0
    ensures base * (1.0 + pct / 100.0) == base + base * pct / 100.0
  {
    var share := pct / 100.0;
    assert base * pct / 100.0 == base * share;
  }

  lemma AtrExactly(entry: real, atr: real, stopMult: real, targetMult: real)
    ensures var r := AtrBased(entry, atr, stopMult, targetMult);
            && (r.Failure? <==> entry <= 0.0 || atr <= 0.0)
            && (r.Success? ==> AtRange(entry, atr, stopMult, targetMult, r.value))
  {
  }

  // ---- Proposals ----

  /** The strategy, or the replayed decision, wants to buy; it sees the bars up to the day. */
  ghost predicate Wants(env: Env, sym: Symbol, day: Day, rows: seq<Row>) {
    if env.config.mode == LlmReplay then env.oracle.replay(day, sym) == Some(SignalAction.Buy)
    else rows != [] && env.oracle.entry(rows)
  }

  /** The exits of the strategy at a close: at the range it measures, or at fixed percentages. */
  ghost predicate ExitsAt(env: Env, rows: seq<Row>, close: real, p: ExitPrices) {
    && close > 0.0
    && match env.config.strategy
       case PositionTrading =>
         env.oracle.atr(rows).Some? && env.oracle.atr(rows).value > 0.0
         && AtRange(close, env.oracle.atr(rows).value, env.config.atrStopMult, env.config.atrTpMult, p)
       case SwingTrading =>
         env.config.stopPct >= 0.0 && env.config.tpPct >= 0.0
         && AtPercentages(close, env.config.stopPct, env.config.tpPct, p)
  }

  /** What a proposal for a symbol is, at a close and against a total portfolio value. */
  ghost predicate Proposes(env: Env, sym: Symbol, day: Day, rows: seq<Row>, close: real, total: real, p: ExitPrices,
                           q: int)
  {
    && Wants(env, sym, day, rows) && ExitsAt(env, rows, close, p) && p.stop > 0.0 && p.stop != close && total > 0.0
    && q >= 1 && Admissible(env.settings.sizing, close, p.stop, total, 0, q)
    && forall n :: n > q ==> !Admissible(env.settings.sizing, close, p.stop, total, 0, n)
  }

  /** The bars of a symbol from the first trading date to a day. */
  ghost predicate SeenBars(env: Env, sym: Symbol, day: Day, rows: seq<Row>) {
    && RowsIncreasing(rows)
    && forall row :: row in rows <==>
         sym in env.loader.data && row in env.loader.data[sym] && row.date <= day
  }

  /** On a history, the range from the first trading date misses no bar up to the day. */
  lemma SeenIsAll(env: Env, sym: Symbol, day: Day)
    requires IsHistory(env.loader)
    ensures SeenBars(env, sym, day, GetOhlcvRange(env.loader, sym, Earliest(env.loader, day), day))
  {
    RangeIsExact(Rows(env.loader, sym), Earliest(env.loader, day), day);
    forall row | row in Rows(env.loader, sym) ensures Earliest(env.loader, day) <= row.date {
      var i :| 0 <= i < |env.loader.data[sym]| && env.loader.data[sym][i] == row;
      assert HasBar(env.loader, row.date);
    }
  }

  lemma ExitPricesExactly(env: Env, rows: seq<Row>, close: real)
    ensures var r := ExitPricesFor(env, rows, close);
            && (r.Some? ==> ExitsAt(env, rows, close, r.value))
            && (r.None? ==> forall p :: !ExitsAt(env, rows, close, p))
  {
    FixedExactly(close, env.config.stopPct, env.config.tpPct);
    var atr := env.oracle.atr(rows);
    if atr.Some? { AtrExactly(close, atr.value, env.config.atrStopMult, env.config.atrTpMult); }
  }

  /**
    A symbol is proposed exactly when the strategy wants it on the bars up to the day and a positive quantity is
    admissible at the close of the day with the exits of the strategy; the proposal is a purchase of the largest
    such quantity with those exits.
  */
  lemma ProposeExactly(env: Env, sym: Symbol, day: Day, total: real, rows: seq<Row>)
    requires IsHistory(env.loader) && rows == GetOhlcvRange(env.loader, sym, Earliest(env.loader, day), day)
    ensures SeenBars(env, sym, day, rows)
    ensures match Propose(env, sym, day, total)
            case Some(signal) =>
              && signal.symbol == sym && signal.action == SignalAction.Buy && signal.stop.Some? && signal.target.Some?
              && exists row ::
                   && BarOn(env.loader, sym, day, row)
                   && Proposes(env, sym, day, rows, row.close, total,
                               ExitPrices(signal.stop.value, signal.target.value), signal.quantity)
            case None =>
              forall row, p, q :: BarOn(env.loader, sym, day, row) ==>
                !Proposes(env, sym, day, rows, row.close, total, p, q)
  {
    SeenIsAll(env, sym, day);
    PricesOfTheDay(env.loader, sym, day);
    forall row | BarOn(env.loader, sym, day, row) ensures ProposedAt(env, sym, day, rows, row.close, total) {
      ProposeAtClose(env, sym, day, total, rows, row);
    }
  }

  ghost predicate ProposedAt(env: Env, sym: Symbol, day: Day, rows: seq<Row>, close: real, total: real) {
    match Propose(env, sym, day, total)
    case Some(signal) =>
      && signal.symbol == sym && signal.action == SignalAction.Buy && signal.stop.Some? && signal.target.Some?
      && Proposes(env, sym, day, rows, close, total, ExitPrices(signal.stop.value, signal.target.value),
                  signal.quantity)
    case None => forall p, q :: !Proposes(env, sym, day, rows, close, total, p, q)
  }

  lemma ProposeAtClose(env: Env, sym: Symbol, day: Day, total: real, rows: seq<Row>, row: Row)
    requires rows == GetOhlcvRange(env.loader, sym, Earliest(env.loader, day), day)
    requires GetClose(env.loader, sym, day) == Some(row.close)
    ensures ProposedAt(env, sym, day, rows, row.close, total)
  {
    if Wants(env, sym, day, rows) { SizedAtClose(env, sym, row.close, rows, total, day); }
  }

  lemma SizedAtClose(env: Env, sym: Symbol, close: real, rows: seq<Row>, total: real, day: Day)
    requires Wants(env, sym, day, rows)
    ensures match Sized(env, sym, close, rows, total)
            case Some(signal) =>
              && signal.symbol == sym && signal.action == SignalAction.Buy && signal.stop.Some? && signal.target.Some?
              && Proposes(env, sym, day, rows, close, total, ExitPrices(signal.stop.value, signal.target.value),
                          signal.quantity)
            case None => forall p, q :: !Proposes(env, sym, day, rows, close, total, p, q)
  {
    ExitPricesExactly(env, rows, close);
    var prices := ExitPricesFor(env, rows, close);
    if prices.Some? {
      var stop := prices.value.stop;
      CalculateExactly(env.settings.sizing, sym, close, stop, Some(prices.value.target), total, 0.0);
      if stop > 0.0 && stop != close {
        SizedExactly(env.settings.sizing, close, stop, total, 0.0, 0);
      }
      forall p, q | Proposes(env, sym, day, rows, close, total, p, q)
        ensures p == prices.value && q == Quantity(env.settings.sizing, close, stop, total, 0.0)
      {
      }
    }
  }
}
