/**
  The algorithmic risk gate (src/strategy/risk_manager.py): eight rules over a portfolio snapshot. Rule 7
  (correlation) only ever adds a warning, so it has no part in the quantities and is left out.
*/
module RiskGate {
  import opened Wrappers
  import opened Decimals
  import opened Enums
  import opened MarketData
  import Sizing

  datatype Holding = Holding(symbol: Symbol, marketValue: real)

  datatype PortfolioState =
    PortfolioState(totalValue: real, positions: seq<Holding>, sectorAllocations: map<string, real>, drawdownPct: real,
                   dailyPnl: real, dailyPnlPct: real, dailyTradeCount: int)

  datatype Settings =
    Settings(sizing: Sizing.Limits, maxPositions: int, sectorPct: real, maxDrawdownPct: real, dailyLossPct: real,
             dailyLossKrw: real, maxDailyTrades: int)

  datatype Violation =
    | InvalidPrice
    | ZeroPortfolio
    | RiskPerTrade
    | MaxPosition
    | MaxHoldings
    | SectorConcentration
    | MaxDrawdown
    | DailyLossLimit
    | MaxDailyTrades

  datatype RuleResult = RuleResult(violation: Option<Violation>, maxQuantity: Option<int>)

  datatype CheckResult =
    CheckResult(passed: bool, violations: seq<Violation>, adjustedQuantity: int, adjustedAmount: real,
                maxAllowedQuantity: int)

  const Unconstrained := RuleResult(None, None)

  function Blocked(v: Violation): RuleResult { RuleResult(Some(v), Some(0)) }

  function Capped(violated: bool, v: Violation, maxQuantity: int): RuleResult {
    RuleResult(if violated then Some(v) else None, Some(maxQuantity))
  }

  function Existing(positions: seq<Holding>, symbol: Symbol): real {
    if positions == [] then 0.0
    else (if positions[0].symbol == symbol then positions[0].marketValue else 0.0) + Existing(positions[1..], symbol)
  }

  function Symbols(positions: seq<Holding>): set<Symbol> {
    set p | p in positions :: p.symbol
  }

  // ---- Rules 1 to 6 and 8 ----

  function PositionSizing(s: Settings, state: PortfolioState, quantity: int, price: real,
                          stop: Option<real>): RuleResult
  {
    if stop.None? then Unconstrained
    else
      var perShare := Abs(price - stop.value);
      if perShare == 0.0 then Unconstrained
      else
        var maxRisk := Percent(state.totalValue, s.sizing.riskPct);
        Capped(Amount(perShare, quantity) > maxRisk, RiskPerTrade, Units(maxRisk, perShare))
  }

  function PositionLimit(s: Settings, state: PortfolioState): real {
    Min(Percent(state.totalValue, s.sizing.maxPositionPct), s.sizing.maxPositionKrw)
  }

  /** Shares that fit under the position limit beside what is held. */
  function PositionRoom(s: Settings, state: PortfolioState, symbol: Symbol, price: real): int
    requires price > 0.0
  {
    var remaining := PositionLimit(s, state) - Existing(state.positions, symbol);
    if remaining <= 0.0 then 0 else Units(remaining, price)
  }

  function MaxPositionRule(s: Settings, state: PortfolioState, symbol: Symbol, quantity: int, price: real): RuleResult
    requires price > 0.0
  {
    Capped(Existing(state.positions, symbol) + Amount(price, quantity) > PositionLimit(s, state), MaxPosition,
           PositionRoom(s, state, symbol, price))
  }

  function MaxHoldingsRule(s: Settings, state: PortfolioState, symbol: Symbol): RuleResult {
    var held := Symbols(state.positions);
    if symbol in held then Unconstrained
    else if |held| >= s.maxPositions then Blocked(MaxHoldings)
    else Unconstrained
  }

  function SectorRule(s: Settings, state: PortfolioState, quantity: int, price: real, sector: string): RuleResult
    requires price > 0.0 && state.totalValue > 0.0
  {
    var current := if sector in state.sectorAllocations then state.sectorAllocations[sector] else 0.0;
    var additional := PctOf(Amount(price, quantity), state.totalValue);
    var allowed := s.sectorPct - current;
    Capped(current + additional > s.sectorPct, SectorConcentration,
           if allowed <= 0.0 then 0 else Units(Percent(state.totalValue, allowed), price))
  }

  function DrawdownRule(s: Settings, state: PortfolioState): RuleResult {
    if state.drawdownPct >= s.maxDrawdownPct then Blocked(MaxDrawdown) else Unconstrained
  }

  function DailyLossRule(s: Settings, state: PortfolioState): RuleResult {
    if state.dailyPnlPct < -s.dailyLossPct || state.dailyPnl < -s.dailyLossKrw
    then Blocked(DailyLossLimit) else Unconstrained
  }

  function DailyTradesRule(s: Settings, state: PortfolioState): RuleResult {
    if state.dailyTradeCount >= s.maxDailyTrades then Blocked(MaxDailyTrades) else Unconstrained
  }

  function Rules(s: Settings, state: PortfolioState, symbol: Symbol, quantity: int, price: real, stop: Option<real>,
                 sector: string): seq<RuleResult>
    requires price > 0.0 && state.totalValue > 0.0
  {
    [PositionSizing(s, state, quantity, price, stop),
     MaxPositionRule(s, state, symbol, quantity, price),
     MaxHoldingsRule(s, state, symbol),
     SectorRule(s, state, quantity, price, sector),
     DrawdownRule(s, state),
     DailyLossRule(s, state),
     DailyTradesRule(s, state)]
  }

  // ---- Folding the rule results ----

  function Violations(results: seq<RuleResult>): seq<Violation> {
    if results == [] then []
    else (if results[0].violation.Some? then [results[0].violation.value] else []) + Violations(results[1..])
  }

  function Caps(results: seq<RuleResult>): seq<int> {
    if results == [] then []
    else (if results[0].maxQuantity.Some? then [results[0].maxQuantity.value] else []) + Caps(results[1..])
  }

  function MinOf(values: seq<int>): int
    requires values != []
  {
    if |values| == 1 then values[0] else MinInt(values[0], MinOf(values[1..]))
  }

  predicate HasBlock(results: seq<RuleResult>) {
    exists i :: 0 <= i < |results| && results[i].violation.Some? && results[i].maxQuantity == Some(0)
  }

  function Combine(results: seq<RuleResult>, quantity: int, price: real): CheckResult {
    var caps := Caps(results);
    var adjusted := if HasBlock(results) then 0
                    else if caps != [] then MaxInt(0, MinInt(quantity, MinOf(caps)))
                    else quantity;
    var allowed := if caps != [] then MinOf(caps) else quantity;
    CheckResult(Violations(results) == [], Violations(results), adjusted, Amount(price, adjusted), MaxInt(0, allowed))
  }

  function Refused(v: Violation): CheckResult { CheckResult(false, [v], 0, 0.0, 0) }

  /** `check` */
  function Check(s: Settings, state: PortfolioState, symbol: Symbol, action: SignalAction, quantity: int, price: real,
                 stop: Option<real>, sector: string): CheckResult {
    if action != SignalAction.Buy then CheckResult(true, [], quantity, Amount(price, quantity), quantity)
    else if price <= 0.0 then Refused(InvalidPrice)
    else if state.totalValue <= 0.0 then Refused(ZeroPortfolio)
    else Combine(Rules(s, state, symbol, quantity, price, stop, sector), quantity, price)
  }

  // ---- The exact threshold ----

  /**
    A rule is a threshold for a quantity when its cap is not negative and the rule is violated exactly
    above it; a rule without a cap is never violated.
  */
  ghost predicate IsThreshold(r: RuleResult, quantity: int) {
    match r.maxQuantity
    case None => r.violation.None?
    case Some(cap) => cap >= 0 && (r.violation.Some? <==> quantity > cap)
  }

  lemma {:induction false} CombineThresholds(results: seq<RuleResult>, quantity: int)
    requires forall r :: r in results ==> IsThreshold(r, quantity)
    ensures forall c :: c in Caps(results) ==> c >= 0
    ensures Caps(results) == [] ==> Violations(results) == [] && !HasBlock(results)
    ensures Caps(results) != [] ==>
              var cap := MinOf(Caps(results));
              && cap >= 0
              && (Violations(results) == [] <==> quantity <= cap)
              && (HasBlock(results) ==> cap == 0 && quantity > cap)
  {
    if results != [] {
      var rest := results[1..];
      CombineThresholds(rest, quantity);
      assert IsThreshold(results[0], quantity);
      assert HasBlock(results) ==>
               HasBlock(rest) || (results[0].violation.Some? && results[0].maxQuantity == Some(0)) by {
        if HasBlock(results) {
          var i :| 0 <= i < |results| && results[i].violation.Some? && results[i].maxQuantity == Some(0);
          if i > 0 { assert rest[i - 1] == results[i]; }
        }
      }
      if results[0].maxQuantity.Some? {
        assert Caps(results) == [results[0].maxQuantity.value] + Caps(rest);
        assert Caps(results)[1..] == Caps(rest);
      } else {
        assert Caps(results) == Caps(rest);
        assert Violations(results) == Violations(rest);
      }
    }
  }

  lemma RiskRuleThreshold(s: Settings, state: PortfolioState, quantity: int, price: real, stop: Option<real>)
    requires state.totalValue > 0.0 && s.sizing.riskPct >= 0.0
    ensures IsThreshold(PositionSizing(s, state, quantity, price, stop), quantity)
  {
    if stop.Some? && Abs(price - stop.value) != 0.0 {
      PercentSign(state.totalValue, s.sizing.riskPct);
      Threshold(quantity, Abs(price - stop.value), Percent(state.totalValue, s.sizing.riskPct));
    }
  }

  /** With a budget below zero the rule is violated by any quantity. */
  lemma NoRiskBudget(s: Settings, state: PortfolioState, quantity: int, price: real, stop: Option<real>)
    requires quantity >= 1
    requires var cap := PositionSizing(s, state, quantity, price, stop).maxQuantity; cap.Some? && cap.value < 0
    ensures PositionSizing(s, state, quantity, price, stop).violation.Some?
  {
    CapIsExact(Percent(state.totalValue, s.sizing.riskPct), Abs(price - stop.value), quantity);
  }

  /** The rule is a threshold whenever its cap is not negative. */
  lemma RiskRuleAllows(s: Settings, state: PortfolioState, quantity: int, price: real, stop: Option<real>)
    requires quantity >= 1
    requires var cap := PositionSizing(s, state, quantity, price, stop).maxQuantity; cap.Some? ==> cap.value >= 0
    ensures IsThreshold(PositionSizing(s, state, quantity, price, stop), quantity)
  {
    if stop.Some? && Abs(price - stop.value) != 0.0 {
      CapIsExact(Percent(state.totalValue, s.sizing.riskPct), Abs(price - stop.value), quantity);
    }
  }

  lemma PositionRuleThreshold(s: Settings, state: PortfolioState, symbol: Symbol, quantity: int, price: real)
    requires price > 0.0 && quantity >= 1
    ensures IsThreshold(MaxPositionRule(s, state, symbol, quantity, price), quantity)
  {
    var remaining := PositionLimit(s, state) - Existing(state.positions, symbol);
    if remaining > 0.0 {
      Threshold(quantity, price, remaining);
    } else {
      AmountSign(price, quantity);
    }
  }

  lemma SectorRuleThreshold(s: Settings, state: PortfolioState, quantity: int, price: real, sector: string)
    requires price > 0.0 && state.totalValue > 0.0 && quantity >= 1
    ensures IsThreshold(SectorRule(s, state, quantity, price, sector), quantity)
  {
    var allowed := s.sectorPct - if sector in state.sectorAllocations then state.sectorAllocations[sector] else 0.0;
    AmountSign(price, quantity);
    ShareOfTotal(Amount(price, quantity), state.totalValue, allowed);
    if allowed > 0.0 {
      PercentSign(state.totalValue, allowed);
      Threshold(quantity, price, Percent(state.totalValue, allowed));
    }
  }

  /** A value is within a percentage of the total exactly when its own percentage is. */
  lemma ShareOfTotal(value: real, total: real, pct: real)
    requires total > 0.0
    ensures PctOf(value, total) <= pct <==> value <= Percent(total, pct)
    ensures value > 0.0 ==> PctOf(value, total) > 0.0
  {
    var share := value / total;
    DivTimes(value, total);
    if share <= pct / 100.0 {
      MulMonotone(share, pct / 100.0, total);
    } else {
      MulPositive(share - pct / 100.0, total);
    }
    if value > 0.0 && share <= 0.0 {
      MulMonotone(share, 0.0, total);
    }
  }

  /** The rule results whose caps do not mention the requested quantity. */
  lemma CapsIgnoreQuantity(s: Settings, state: PortfolioState, symbol: Symbol, q: int, r: int, price: real,
                           stop: Option<real>, sector: string)
    requires price > 0.0 && state.totalValue > 0.0
    ensures Caps(Rules(s, state, symbol, q, price, stop, sector))
            == Caps(Rules(s, state, symbol, r, price, stop, sector))
  {
    var a, b := Rules(s, state, symbol, q, price, stop, sector), Rules(s, state, symbol, r, price, stop, sector);
    SameCaps(a, b);
  }

  lemma {:induction false} SameCaps(a: seq<RuleResult>, b: seq<RuleResult>)
    requires |a| == |b| && forall i :: 0 <= i < |a| ==> a[i].maxQuantity == b[i].maxQuantity
    ensures Caps(a) == Caps(b)
  {
    if a != [] {
      SameCaps(a[1..], b[1..]);
    }
  }

  lemma CapsPresent(results: seq<RuleResult>, i: int)
    requires 0 <= i < |results| && results[i].maxQuantity.Some?
    ensures Caps(results) != []
  {
    if i > 0 {
      CapsPresent(results[1..], i - 1);
    }
  }

  lemma CapBounds(results: seq<RuleResult>, i: int)
    requires 0 <= i < |results| && results[i].maxQuantity.Some?
    ensures Caps(results) != [] && MinOf(Caps(results)) <= results[i].maxQuantity.value
    ensures results[i].violation.Some? ==> Violations(results) != []
  {
    if i > 0 { CapBounds(results[1..], i - 1); }
    if results[0].maxQuantity.Some? {
      assert Caps(results) == [results[0].maxQuantity.value] + Caps(results[1..]);
      assert Caps(results)[0] == results[0].maxQuantity.value && Caps(results)[1..] == Caps(results[1..]);
    } else {
      assert Caps(results) == Caps(results[1..]);
    }
  }

  /**
    The exact risk threshold: the check passes exactly up to `maxAllowedQuantity`, and the adjusted
    quantity is the smaller of the two.
  */
  lemma ExactThreshold(s: Settings, state: PortfolioState, symbol: Symbol, quantity: int, price: real,
                       stop: Option<real>, sector: string)
    requires quantity >= 1 && price > 0.0 && state.totalValue > 0.0
    ensures var c := Check(s, state, symbol, SignalAction.Buy, quantity, price, stop, sector);
            && c.maxAllowedQuantity >= 0
            && (c.passed <==> quantity <= c.maxAllowedQuantity)
            && c.adjustedQuantity == MinInt(quantity, c.maxAllowedQuantity)
  {
    var results := Rules(s, state, symbol, quantity, price, stop, sector);
    if results[0].maxQuantity.Some? && results[0].maxQuantity.value < 0 {
      NoRiskBudget(s, state, quantity, price, stop);
      CapBounds(results, 0);
      return;
    }
    RiskRuleAllows(s, state, quantity, price, stop);
    PositionRuleThreshold(s, state, symbol, quantity, price);
    SectorRuleThreshold(s, state, quantity, price, sector);
    CombineThresholds(results, quantity);
    CapsPresent(results, 1);
  }

  /** The threshold is a property of the portfolio, not of the quantity that was asked for. */
  lemma {:induction false} ThresholdIgnoresQuantity(s: Settings, state: PortfolioState, symbol: Symbol, q: int, r: int,
                                                    price: real,
                                 stop: Option<real>, sector: string)
    ensures q >= 1 && r >= 1 ==>
              Check(s, state, symbol, SignalAction.Buy, q, price, stop, sector).maxAllowedQuantity
              == Check(s, state, symbol, SignalAction.Buy, r, price, stop, sector).maxAllowedQuantity
  {
    if price > 0.0 && state.totalValue > 0.0 {
      CapsIgnoreQuantity(s, state, symbol, q, r, price, stop, sector);
      CapsPresent(Rules(s, state, symbol, q, price, stop, sector), 1);
    }
  }

  /** Checking the adjusted quantity again passes and leaves it alone. */
  lemma {:induction false} RecheckPasses(s: Settings, state: PortfolioState, symbol: Symbol, quantity: int, price: real,
                                         stop: Option<real>,
                      sector: string)
    requires quantity >= 1
    ensures var adjusted := Check(s, state, symbol, SignalAction.Buy, quantity, price, stop, sector).adjustedQuantity;
            && 0 <= adjusted <= quantity
            && (adjusted >= 1 ==>
                  var again := Check(s, state, symbol, SignalAction.Buy, adjusted, price, stop, sector);
                  again.passed && again.adjustedQuantity == adjusted)
  {
    if price > 0.0 && state.totalValue > 0.0 {
      ExactThreshold(s, state, symbol, quantity, price, stop, sector);
      var adjusted := Check(s, state, symbol, SignalAction.Buy, quantity, price, stop, sector).adjustedQuantity;
      if adjusted >= 1 {
        ExactThreshold(s, state, symbol, adjusted, price, stop, sector);
        ThresholdIgnoresQuantity(s, state, symbol, quantity, adjusted, price, stop, sector);
      }
    }
  }

  /** A quantity that passes is never adjusted, whatever the limits are. */
  lemma PassedUnchanged(s: Settings, state: PortfolioState, symbol: Symbol, action: SignalAction, quantity: int,
                        price: real, stop: Option<real>, sector: string)
    requires quantity >= 1 && Check(s, state, symbol, action, quantity, price, stop, sector).passed
    ensures Check(s, state, symbol, action, quantity, price, stop, sector).adjustedQuantity == quantity
  {
    if action == SignalAction.Buy { ExactThreshold(s, state, symbol, quantity, price, stop, sector); }
  }

  // ---- The sizer against the gate ----

  /** The two position caps, each floored on its own, are the floor of the smaller limit. */
  lemma FlooredLimit(s: Settings, state: PortfolioState, price: real, existing: real)
    requires price > 0.0
    ensures Sizing.RemainingCap(s.sizing, price, state.totalValue, existing)
         == MaxInt(0, Units(PositionLimit(s, state), price) - Units(existing, price))
  {
    var pct, krw := Percent(state.totalValue, s.sizing.maxPositionPct), s.sizing.maxPositionKrw;
    if pct <= krw {
      UnitsMonotone(pct, krw, price);
    } else {
      UnitsMonotone(krw, pct, price);
    }
  }

  /**
    The sizer floors the limit and the holding separately, the gate floors their difference: the sizer
    allows as much or one share more, and exactly as much when nothing is held.
  */
  lemma SizerWithinOneShare(s: Settings, state: PortfolioState, symbol: Symbol, price: real)
    requires price > 0.0 && Existing(state.positions, symbol) >= 0.0
    ensures var sizer := Sizing.RemainingCap(s.sizing, price, state.totalValue, Existing(state.positions, symbol));
            var gate := PositionRoom(s, state, symbol, price);
            && gate <= sizer <= gate + 1
            && (Existing(state.positions, symbol) == 0.0 ==> sizer == gate)
  {
    FlooredLimit(s, state, price, Existing(state.positions, symbol));
    SeparateFloors(PositionLimit(s, state), Existing(state.positions, symbol), price);
  }

  /**
    Without a holding, a positive sized quantity satisfies rules 1 and 2 of the gate exactly when the risk
    quantity was at least one before the sizer's one-share floor.
  */
  lemma {:induction false} SizedQuantityPasses(s: Settings, state: PortfolioState, symbol: Symbol, price: real,
                                               stop: real)
    requires price > 0.0 && price != stop && state.totalValue > 0.0 && s.sizing.riskPct >= 0.0
    requires Existing(state.positions, symbol) == 0.0
    ensures var quantity := Sizing.Quantity(s.sizing, price, stop, state.totalValue, 0.0);
            quantity >= 1 ==>
              (&& PositionSizing(s, state, quantity, price, Some(stop)).violation.None?
               && MaxPositionRule(s, state, symbol, quantity, price).violation.None?
               <==> Sizing.RawQuantity(s.sizing, price, stop, state.totalValue) >= 1)
  {
    var quantity := Sizing.Quantity(s.sizing, price, stop, state.totalValue, 0.0);
    if quantity >= 1 {
      SizerWithinOneShare(s, state, symbol, price);
      RiskRuleThreshold(s, state, quantity, price, Some(stop));
      PositionRuleThreshold(s, state, symbol, quantity, price);
      assert PositionSizing(s, state, quantity, price, Some(stop)).maxQuantity
          == Some(Sizing.RawQuantity(s.sizing, price, stop, state.totalValue));
      assert MaxPositionRule(s, state, symbol, quantity, price).maxQuantity
             == Some(PositionRoom(s, state, symbol, price));
    }
  }
}
