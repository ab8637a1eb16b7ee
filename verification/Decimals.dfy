/**
  The two rounding operations that the repository applies to `Decimal` values. Values are exact
  rationals (`real`); the 28-digit context rounding of intermediate results is abstracted away.
*/
module Decimals {

  /** `quantize(Decimal("1"), rounding=ROUND_HALF_UP)`: nearest integer, ties away from zero. */
  function RoundHalfUp(x: real): (n: int)
    ensures x >= 0.0 ==> n as real - 0.5 <= x < n as real + 0.5
    ensures x < 0.0 ==> n as real - 0.5 < x <= n as real + 0.5
  {
    if x >= 0.0 then (x + 0.5).Floor else -((-x + 0.5).Floor)
  }

  /** `quantize(Decimal("0.01"), rounding=ROUND_HALF_UP)`. */
  function Cents(x: real): real {
    RoundHalfUp(x * 100.0) as real / 100.0
  }

  /** `int(x)`: truncation toward zero. */
  function Truncate(x: real): (n: int)
    ensures x >= 0.0 ==> n as real <= x < n as real + 1.0
    ensures x < 0.0 ==> x <= n as real < x + 1.0
  {
    if x >= 0.0 then x.Floor else -((-x).Floor)
  }

  function Max(x: real, y: real): real { if x < y then y else x }

  function Min(x: real, y: real): real { if y < x then y else x }

  function MaxInt(x: int, y: int): int { if x < y then y else x }

  function MinInt(x: int, y: int): int { if y < x then y else x }

  function Abs(x: real): real { if x < 0.0 then -x else x }

  lemma RoundMonotone(x: real, y: real)
    requires x <= y
    ensures RoundHalfUp(x) <= RoundHalfUp(y)
  {
    if x < 0.0 <= y {
      assert RoundHalfUp(x) as real < 0.5;
    }
  }

  lemma RoundOfInteger(n: int)
    ensures RoundHalfUp(n as real) == n
  {
  }

  lemma CentsMonotone(x: real, y: real)
    requires x <= y
    ensures Cents(x) <= Cents(y)
  {
    RoundMonotone(x * 100.0, y * 100.0);
  }

  lemma DivTimes(x: real, y: real)
    requires y != 0.0
    ensures x / y * y == x
  {
  }

  lemma MulMonotone(x: real, y: real, z: real)
    requires x <= y && 0.0 <= z
    ensures x * z <= y * z
  {
  }

  lemma MulPositive(x: real, y: real)
    requires 0.0 < x && 0.0 < y
    ensures 0.0 < x * y
  {
  }

  lemma MulCancel(x: real, y: real, z: real)
    requires x * z <= y * z && 0.0 < z
    ensures x <= y
  {
    if x > y {
      MulPositive(x - y, z);
    }
  }

  // ---- What rounding means ----

  /** w is x rounded half up to a whole number: ties go away from zero. */
  ghost predicate Nearest(w: real, x: real) {
    && w == w.Floor as real
    && (x >= 0.0 ==> w - 0.5 <= x < w + 0.5)
    && (x < 0.0 ==> w - 0.5 < x <= w + 0.5)
  }

  lemma RoundedIsNearest(x: real)
    ensures Nearest(RoundHalfUp(x) as real, x)
  {
  }

  /** Only one whole number is nearest. */
  lemma NearestIsOne(w: real, v: real, x: real)
    requires Nearest(w, x) && Nearest(v, x)
    ensures w == v
  {
    WholeWithinOne(w.Floor, v.Floor);
  }

  lemma WholeWithinOne(m: int, n: int)
    requires m as real - 1.0 < n as real < m as real + 1.0
    ensures m == n
  {
  }

  /** Rounded half up to hundredths. */
  ghost predicate NearestCent(c: real, x: real) { Nearest(c * 100.0, x * 100.0) }

  lemma CentsNearest(x: real)
    ensures NearestCent(Cents(x), x)
  {
    RoundedIsNearest(x * 100.0);
    assert Cents(x) * 100.0 == RoundHalfUp(x * 100.0) as real;
  }

  // ---- Amounts, shares and percentages ----

  /** The value of n shares at a price. */
  function Amount(price: real, n: int): real { price * n as real }

  /** How many units of a size fit into some room: `int(room / unit)`. */
  function Units(room: real, unit: real): int
    requires unit != 0.0
  {
    Truncate(room / unit)
  }

  /** A percentage of a total. */
  function Percent(total: real, pct: real): real { total * pct / 100.0 }

  /** The percentage that a part is of a total. */
  function PctOf(part: real, total: real): real
    requires total != 0.0
  {
    part / total * 100.0
  }

  lemma AmountSum(price: real, m: int, n: int)
    ensures Amount(price, m + n) == Amount(price, m) + Amount(price, n)
  {
  }

  lemma AmountDiff(price: real, cost: real, n: int)
    ensures Amount(price - cost, n) == Amount(price, n) - Amount(cost, n)
  {
  }

  lemma AmountSign(price: real, n: int)
    ensures price > 0.0 && n > 0 ==> Amount(price, n) > 0.0
    ensures price >= 0.0 && n >= 0 ==> Amount(price, n) >= 0.0
  {
    if price > 0.0 && n > 0 {
      MulPositive(price, n as real);
    }
  }

  lemma PercentSign(total: real, pct: real)
    requires total >= 0.0 && pct >= 0.0
    ensures Percent(total, pct) >= 0.0
  {
    MulMonotone(0.0, total, pct);
  }

  lemma DivMonotone(a: real, b: real, c: real)
    requires a <= b && c > 0.0
    ensures a / c <= b / c
  {
    DivTimes(a, c);
    DivTimes(b, c);
    MulCancel(a / c, b / c, c);
  }

  lemma DivSign(x: real, y: real)
    requires x >= 0.0 && y > 0.0
    ensures x / y >= 0.0
  {
    DivTimes(x, y);
    MulCancel(0.0, x / y, y);
  }

  /** An amount changed by a rate. */
  function Scaled(base: real, rate: real): real { base * (1.0 + rate) }

  lemma ScaledUp(base: real, rate: real)
    requires base >= 0.0 && rate >= 0.0
    ensures base <= Scaled(base, rate)
  {
    MulMonotone(0.0, rate, base);
  }

  lemma ScaledSign(base: real, rate: real)
    requires base >= 0.0 && rate >= -1.0
    ensures Scaled(base, rate) >= 0.0
  {
    MulMonotone(0.0, base, 1.0 + rate);
  }

  lemma WholeUnits(n: int, quotient: real, unit: real, room: real)
    requires 0.0 < unit && quotient * unit == room
    ensures Amount(unit, n) <= room <==> n as real <= quotient
  {
    if n as real <= quotient {
      MulMonotone(n as real, quotient, unit);
    }
    if Amount(unit, n) <= room {
      MulCancel(n as real, quotient, unit);
    }
  }

  lemma FloorThreshold(n: int, quotient: real)
    requires quotient >= 0.0
    ensures n as real <= quotient <==> n <= Truncate(quotient)
    ensures Truncate(quotient) >= 0
  {
  }

  /**
    Floor division gives an exact threshold: n units fit into the room exactly when n is at most the
    truncated quotient.
  */
  lemma Threshold(n: int, unit: real, room: real)
    requires 0.0 < unit && 0.0 <= room
    ensures Amount(unit, n) <= room <==> n <= Units(room, unit)
    ensures 0 <= Units(room, unit)
  {
    DivTimes(room, unit);
    DivSign(room, unit);
    WholeUnits(n, room / unit, unit, room);
    FloorThreshold(n, room / unit);
  }

  /** The same for any room and one unit or more. */
  lemma CapIsExact(room: real, unit: real, n: int)
    requires unit > 0.0 && n >= 1
    ensures n <= Units(room, unit) <==> Amount(unit, n) <= room
  {
    if room >= 0.0 {
      Threshold(n, unit, room);
    } else {
      DivMonotone(room, 0.0, unit);
      AmountSign(unit, n);
    }
  }

  lemma UnitsMonotone(a: real, b: real, unit: real)
    requires a <= b && unit > 0.0
    ensures Units(a, unit) <= Units(b, unit)
  {
    DivMonotone(a, b, unit);
  }

  /** Flooring two quotients separately loses at most one against flooring their difference. */
  lemma SeparateFloors(limit: real, held: real, unit: real)
    requires unit > 0.0 && held >= 0.0
    ensures var room := if limit - held <= 0.0 then 0 else Units(limit - held, unit);
            var separate := MaxInt(0, Units(limit, unit) - Units(held, unit));
            room <= separate <= room + 1 && (held == 0.0 ==> separate == room)
  {
    var a, b, c := limit / unit, held / unit, (limit - held) / unit;
    DivTimes(limit, unit);
    DivTimes(held, unit);
    DivTimes(limit - held, unit);
    assert (a - b - c) * unit == 0.0;
    assert c == a - b;
    DivMonotone(0.0, held, unit);
    assert b >= 0.0;
    if limit > held {
      DivMonotone(held, limit, unit);
      assert b <= a;
    } else {
      UnitsMonotone(limit, held, unit);
    }
  }
}
