/**
  The risk gate in the figures of the portfolio alone: a purchase passes exactly when seven inequalities hold, each
  violation is reported exactly when its own inequality fails, and the adjusted and the allowed quantity are the
  largest for which all of them hold.
*/
module GateLaws {
  import opened Wrappers
  import opened Decimals
  import opened Enums
  import opened MarketData
  import opened RiskGate
  import Sizing

  // ---- The inequalities ----

  ghost predicate RiskFits(s: Settings, state: PortfolioState, q: int, price: real, stop: Option<real>) {
    stop.Some? && stop.value != price ==>
      (if price < stop.value then stop.value - price else price - stop.value) * q as real
      <= state.totalValue * s.sizing.riskPct / 100.0
  }

  ghost predicate PositionFits(s: Settings, state: PortfolioState, symbol: Symbol, q: int, price: real) {
    var value := Existing(state.positions, symbol) + price * q as real;
    value <= state.totalValue * s.sizing.maxPositionPct / 100.0 && value <= s.sizing.maxPositionKrw
  }

  /** The symbol is held already, or there is room for one more. */
  ghost predicate HoldingsFit(s: Settings, state: PortfolioState, symbol: Symbol) {
    || (exists i :: 0 <= i < |state.positions| && state.positions[i].symbol == symbol)
    || |set i | 0 <= i < |state.positions| :: state.positions[i].symbol| < s.maxPositions
  }

  ghost predicate SectorFits(s: Settings, state: PortfolioState, q: int, price: real, sector: string)
    requires state.totalValue > 0.0
  {
    var now := if sector in state.sectorAllocations then state.sectorAllocations[sector] else 0.0;
    now + price * q as real / state.totalValue * 100.0 <= s.sectorPct
  }

  ghost predicate LossesFit(s: Settings, state: PortfolioState) {
    state.dailyPnlPct + s.dailyLossPct >= 0.0 && state.dailyPnl + s.dailyLossKrw >= 0.0
  }

  /** All that a purchase of q shares has to satisfy. */
  ghost predicate Admits(s: Settings, state: PortfolioState, symbol: Symbol, q: int, price: real, stop: Option<real>,
                         sector: string)
    requires state.totalValue > 0.0
  {
    && RiskFits(s, state, q, price, stop) && PositionFits(s, state, symbol, q, price)
    && HoldingsFit(s, state, symbol) && SectorFits(s, state, q, price, sector)
    && state.drawdownPct < s.maxDrawdownPct && LossesFit(s, state) && state.dailyTradeCount < s.maxDailyTrades
  }

  /** The inequality whose failure a violation reports. */
  ghost predicate Reports(s: Settings, state: PortfolioState, symbol: Symbol, q: int, price: real, stop: Option<real>,
                          sector: string, v: Violation)
    requires state.totalValue > 0.0
  {
    match v
    case RiskPerTrade => !RiskFits(s, state, q, price, stop)
    case MaxPosition => !PositionFits(s, state, symbol, q, price)
    case MaxHoldings => !HoldingsFit(s, state, symbol)
    case SectorConcentration => !SectorFits(s, state, q, price, sector)
    case MaxDrawdown => state.drawdownPct >= s.maxDrawdownPct
    case DailyLossLimit => !LossesFit(s, state)
    case MaxDailyTrades => state.dailyTradeCount >= s.maxDailyTrades
    case _ => false
  }

  // ---- What is held ----

  /** Each holding of the symbol adds its market value, any other adds nothing. */
  lemma {:induction false} ExistingAdds(positions: seq<Holding>, p: Holding, symbol: Symbol)
    ensures Existing(positions + [p], symbol)
         == Existing(positions, symbol) + if p.symbol == symbol then p.marketValue else 0.0
    ensures Existing([], symbol) == 0.0
  {
    if positions != [] {
      assert (positions + [p])[1..] == positions[1..] + [p];
      ExistingAdds(positions[1..], p, symbol);
    }
  }

  lemma SymbolsByIndex(positions: seq<Holding>)
    ensures Symbols(positions) == set i | 0 <= i < |positions| :: positions[i].symbol
  {
    forall p | p in positions ensures p.symbol in set i | 0 <= i < |positions| :: positions[i].symbol {
      var i :| 0 <= i < |positions| && positions[i] == p;
    }
  }

  // ---- Rule by rule ----

  /** The rule is violated exactly when the inequality fails, and then reports this violation. */
  ghost predicate Guards(r: RuleResult, v: Violation, holds: bool) {
    r.violation == if holds then None else Some(v)
  }

  lemma RiskGuards(s: Settings, state: PortfolioState, q: int, price: real, stop: Option<real>)
    ensures Guards(PositionSizing(s, state, q, price, stop), RiskPerTrade, RiskFits(s, state, q, price, stop))
  {
    if stop.Some? && stop.value != price {
      var distance := if price < stop.value then stop.value - price else price - stop.value;
      assert Abs(price - stop.value) == distance;
    }
  }

  lemma PositionGuards(s: Settings, state: PortfolioState, symbol: Symbol, q: int, price: real)
    requires price > 0.0
    ensures Guards(MaxPositionRule(s, state, symbol, q, price), MaxPosition, PositionFits(s, state, symbol, q, price))
  {
  }

  lemma HoldingsGuards(s: Settings, state: PortfolioState, symbol: Symbol)
    ensures Guards(MaxHoldingsRule(s, state, symbol), MaxHoldings, HoldingsFit(s, state, symbol))
  {
    SymbolsByIndex(state.positions);
    assert symbol in Symbols(state.positions) <==>
             exists i :: 0 <= i < |state.positions| && state.positions[i].symbol == symbol;
  }

  lemma SectorGuards(s: Settings, state: PortfolioState, q: int, price: real, sector: string)
    requires price > 0.0 && state.totalValue > 0.0
    ensures Guards(SectorRule(s, state, q, price, sector), SectorConcentration, SectorFits(s, state, q, price, sector))
  {
  }

  lemma BlocksGuard(s: Settings, state: PortfolioState)
    ensures Guards(DrawdownRule(s, state), MaxDrawdown, state.drawdownPct < s.maxDrawdownPct)
    ensures Guards(DailyLossRule(s, state), DailyLossLimit, LossesFit(s, state))
    ensures Guards(DailyTradesRule(s, state), MaxDailyTrades, state.dailyTradeCount < s.maxDailyTrades)
  {
  }

  lemma {:induction false} ViolationsAre(results: seq<RuleResult>, v: Violation)
    ensures v in Violations(results) <==> exists i :: 0 <= i < |results| && results[i].violation == Some(v)
  {
    if results != [] {
      ViolationsAre(results[1..], v);
      if i :| 0 <= i < |results| && results[i].violation == Some(v) {
        assert i > 0 ==> results[1..][i - 1] == results[i];
      }
      if j :| 0 <= j < |results[1..]| && results[1..][j].violation == Some(v) {
        assert results[j + 1].violation == Some(v);
      }
    }
  }

  // ---- The theorems ----

  lemma RulesGuard(s: Settings, state: PortfolioState, symbol: Symbol, q: int, price: real, stop: Option<real>,
                   sector: string)
    requires price > 0.0 && state.totalValue > 0.0
    ensures var results := Rules(s, state, symbol, q, price, stop, sector);
            && |results| == 7
            && Guards(results[0], RiskPerTrade, RiskFits(s, state, q, price, stop))
            && Guards(results[1], MaxPosition, PositionFits(s, state, symbol, q, price))
            && Guards(results[2], MaxHoldings, HoldingsFit(s, state, symbol))
            && Guards(results[3], SectorConcentration, SectorFits(s, state, q, price, sector))
            && Guards(results[4], MaxDrawdown, state.drawdownPct < s.maxDrawdownPct)
            && Guards(results[5], DailyLossLimit, LossesFit(s, state))
            && Guards(results[6], MaxDailyTrades, state.dailyTradeCount < s.maxDailyTrades)
  {
    RiskGuards(s, state, q, price, stop);
    PositionGuards(s, state, symbol, q, price);
    HoldingsGuards(s, state, symbol);
    SectorGuards(s, state, q, price, sector);
    BlocksGuard(s, state);
  }

  lemma ReportedByRule(s: Settings, state: PortfolioState, symbol: Symbol, q: int, price: real, stop: Option<real>,
                       sector: string, v: Violation)
    requires price > 0.0 && state.totalValue > 0.0
    ensures v in Violations(Rules(s, state, symbol, q, price, stop, sector)) <==>
              Reports(s, state, symbol, q, price, stop, sector, v)
  {
    RulesGuard(s, state, symbol, q, price, stop, sector);
    ViolationsAre(Rules(s, state, symbol, q, price, stop, sector), v);
    SevenResults(Rules(s, state, symbol, q, price, stop, sector), v);
  }

  /** The violations of a purchase are exactly those whose inequality fails. */
  lemma ViolationsExactly(s: Settings, state: PortfolioState, symbol: Symbol, q: int, price: real, stop: Option<real>,
                          sector: string)
    requires price > 0.0 && state.totalValue > 0.0
    ensures var c := Check(s, state, symbol, SignalAction.Buy, q, price, stop, sector);
            && (forall v :: v in c.violations <==> Reports(s, state, symbol, q, price, stop, sector, v))
            && (c.passed <==> c.violations == [])
  {
    forall v ensures v in Violations(Rules(s, state, symbol, q, price, stop, sector)) <==>
                       Reports(s, state, symbol, q, price, stop, sector, v)
    {
      ReportedByRule(s, state, symbol, q, price, stop, sector, v);
    }
  }

  lemma SevenResults(results: seq<RuleResult>, v: Violation)
    requires |results| == 7
    ensures (exists i :: 0 <= i < |results| && results[i].violation == Some(v)) <==>
              || results[0].violation == Some(v) || results[1].violation == Some(v) || results[2].violation == Some(v)
              || results[3].violation == Some(v) || results[4].violation == Some(v) || results[5].violation == Some(v)
              || results[6].violation == Some(v)
  {
  }

  /** Whatever the limits, a purchase passes exactly when all seven inequalities hold. */
  lemma PassesExactly(s: Settings, state: PortfolioState, symbol: Symbol, q: int, price: real, stop: Option<real>,
                      sector: string)
    requires price > 0.0 && state.totalValue > 0.0
    ensures Check(s, state, symbol, SignalAction.Buy, q, price, stop, sector).passed <==>
              Admits(s, state, symbol, q, price, stop, sector)
  {
    var c := Check(s, state, symbol, SignalAction.Buy, q, price, stop, sector);
    ViolationsExactly(s, state, symbol, q, price, stop, sector);
    if c.violations != [] {
      var v := c.violations[0];
      assert v in c.violations;
    } else {
      assert forall v :: !Reports(s, state, symbol, q, price, stop, sector, v);
      assert !Reports(s, state, symbol, q, price, stop, sector, RiskPerTrade)
          && !Reports(s, state, symbol, q, price, stop, sector, MaxPosition)
          && !Reports(s, state, symbol, q, price, stop, sector, MaxHoldings)
          && !Reports(s, state, symbol, q, price, stop, sector, SectorConcentration)
          && !Reports(s, state, symbol, q, price, stop, sector, MaxDrawdown)
          && !Reports(s, state, symbol, q, price, stop, sector, DailyLossLimit)
          && !Reports(s, state, symbol, q, price, stop, sector, MaxDailyTrades);
    }
  }

  /** n is the largest quantity from one on that satisfies all inequalities; zero when not even one share does. */
  ghost predicate LargestAdmitted(s: Settings, state: PortfolioState, symbol: Symbol, price: real, stop: Option<real>,
                                  sector: string, n: int)
    requires state.totalValue > 0.0
  {
    n >= 0 && forall q :: q >= 1 ==> (Admits(s, state, symbol, q, price, stop, sector) <==> q <= n)
  }

  /**
    The allowed quantity is the largest that satisfies all seven inequalities, and a purchase is adjusted to the smaller
    of it and what was asked for.
  */
  lemma AllowedExactly(s: Settings, state: PortfolioState, symbol: Symbol, q: int, price: real, stop: Option<real>,
                       sector: string)
    requires q >= 1 && price > 0.0 && state.totalValue > 0.0
    ensures var c := Check(s, state, symbol, SignalAction.Buy, q, price, stop, sector);
            && LargestAdmitted(s, state, symbol, price, stop, sector, c.maxAllowedQuantity)
            && c.adjustedQuantity == (if q <= c.maxAllowedQuantity then q else c.maxAllowedQuantity)
            && c.adjustedAmount == price * c.adjustedQuantity as real
  {
    ExactThreshold(s, state, symbol, q, price, stop, sector);
    var n := Check(s, state, symbol, SignalAction.Buy, q, price, stop, sector).maxAllowedQuantity;
    forall m | m >= 1 ensures Admits(s, state, symbol, m, price, stop, sector) <==> m <= n {
      PassesExactly(s, state, symbol, m, price, stop, sector);
      ExactThreshold(s, state, symbol, m, price, stop, sector);
      ThresholdIgnoresQuantity(s, state, symbol, q, m, price, stop, sector);
    }
  }

  /** Sales and holds always pass unchanged; a price or a total that is not positive never does. */
  lemma ExemptAndInvalid(s: Settings, state: PortfolioState, symbol: Symbol, action: SignalAction, q: int, price: real,
                         stop: Option<real>, sector: string)
    ensures var c := Check(s, state, symbol, action, q, price, stop, sector);
            && (action == SignalAction.Sell || action == SignalAction.Hold ==>
                  c.passed && c.violations == [] && c.adjustedQuantity == q && c.maxAllowedQuantity == q
                  && c.adjustedAmount == price * q as real)
            && (action == SignalAction.Buy && price <= 0.0 ==>
                  !c.passed && c.violations == [InvalidPrice] && c.adjustedQuantity == 0 && c.maxAllowedQuantity == 0)
            && (action == SignalAction.Buy && price > 0.0 && state.totalValue <= 0.0 ==>
                  !c.passed && c.violations == [ZeroPortfolio] && c.adjustedQuantity == 0 && c.maxAllowedQuantity == 0)
  {
  }
}
