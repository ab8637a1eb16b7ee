/**
  The in-memory price history of a backtest (src/backtest/data_loader.py). Dates are day ordinals.
  `IsHistory` states what `load` establishes: the rows of a symbol come ordered by date and are unique
  per date, and the trading dates are the sorted union of all row dates.
*/
module MarketData {
  import opened Wrappers

  type Symbol = string
  type Day = int

  datatype Row = Row(date: Day, open: real, high: real, low: real, close: real, volume: int)

  datatype Loader = Loader(data: map<Symbol, seq<Row>>, tradingDates: seq<Day>)

  ghost predicate Increasing(days: seq<Day>) {
    forall i, j :: 0 <= i < j < |days| ==> days[i] < days[j]
  }

  ghost predicate RowsIncreasing(rows: seq<Row>) {
    forall i, j :: 0 <= i < j < |rows| ==> rows[i].date < rows[j].date
  }

  ghost predicate HasBar(h: Loader, day: Day) {
    exists sym, i :: sym in h.data && 0 <= i < |h.data[sym]| && h.data[sym][i].date == day
  }

  ghost predicate IsHistory(h: Loader) {
    && (forall sym :: sym in h.data ==> RowsIncreasing(h.data[sym]))
    && Increasing(h.tradingDates)
    && (forall day :: day in h.tradingDates <==> HasBar(h, day))
  }

  function Rows(h: Loader, sym: Symbol): seq<Row> {
    if sym in h.data then h.data[sym] else []
  }

  function Find(rows: seq<Row>, day: Day): Option<Row> {
    if rows == [] then None
    else if rows[0].date == day then Some(rows[0])
    else Find(rows[1..], day)
  }

  function Between(rows: seq<Row>, first: Day, last: Day): seq<Row> {
    if rows == [] then []
    else if first <= rows[0].date <= last then [rows[0]] + Between(rows[1..], first, last)
    else Between(rows[1..], first, last)
  }

  /** `get_ohlcv` */
  function GetOhlcv(h: Loader, sym: Symbol, day: Day): Option<Row> {
    Find(Rows(h, sym), day)
  }

  /** `get_ohlcv_range` */
  function GetOhlcvRange(h: Loader, sym: Symbol, first: Day, last: Day): seq<Row> {
    Between(Rows(h, sym), first, last)
  }

  function GetClose(h: Loader, sym: Symbol, day: Day): Option<real> {
    match GetOhlcv(h, sym, day)
    case Some(row) => Some(row.close)
    case None => None
  }

  function GetOpen(h: Loader, sym: Symbol, day: Day): Option<real> {
    match GetOhlcv(h, sym, day)
    case Some(row) => Some(row.open)
    case None => None
  }

  function DatesBetween(days: seq<Day>, first: Day, last: Day): (r: seq<Day>)
    ensures forall d :: d in r <==> d in days && first <= d <= last
  {
    if days == [] then []
    else if first <= days[0] <= last then [days[0]] + DatesBetween(days[1..], first, last)
    else DatesBetween(days[1..], first, last)
  }

  lemma {:induction false} DatesBetweenIncreasing(days: seq<Day>, first: Day, last: Day)
    requires Increasing(days)
    ensures Increasing(DatesBetween(days, first, last))
  {
    if days != [] {
      var rest := DatesBetween(days[1..], first, last);
      DatesBetweenIncreasing(days[1..], first, last);
      forall d | d in rest ensures days[0] < d {
        assert d in days[1..];
      }
      PrependIncreasing(days[0], rest);
    }
  }

  lemma PrependIncreasing(d: Day, days: seq<Day>)
    requires Increasing(days) && forall e :: e in days ==> d < e
    ensures Increasing([d] + days)
  {
    var r := [d] + days;
    forall i, j | 0 <= i < j < |r| ensures r[i] < r[j] {
      assert r[j] == days[j - 1] && r[j] in days;
      if i > 0 { assert r[i] == days[i - 1]; }
    }
  }

  // ---- What the strategy can see of the history up to and including one day ----

  ghost function Through(rows: seq<Row>, last: Day): (r: seq<Row>)
    ensures forall row :: row in r <==> row in rows && row.date <= last
  {
    if rows == [] then []
    else if rows[0].date <= last then [rows[0]] + Through(rows[1..], last)
    else Through(rows[1..], last)
  }

  /** Two histories hold the same bars up to and including `last`; later bars are arbitrary. */
  ghost predicate AgreeThrough(h: Loader, k: Loader, last: Day) {
    forall sym :: Through(Rows(h, sym), last) == Through(Rows(k, sym), last)
  }

  lemma {:induction false} FindThrough(rows: seq<Row>, last: Day, day: Day)
    requires day <= last
    ensures Find(rows, day) == Find(Through(rows, last), day)
  {
    if rows != [] {
      FindThrough(rows[1..], last, day);
      if rows[0].date <= last {
        assert Through(rows, last)[1..] == Through(rows[1..], last);
      }
    }
  }

  lemma {:induction false} BetweenThrough(rows: seq<Row>, last: Day, first: Day, day: Day)
    requires day <= last
    ensures Between(rows, first, day) == Between(Through(rows, last), first, day)
  {
    if rows != [] {
      BetweenThrough(rows[1..], last, first, day);
      if rows[0].date <= last {
        assert Through(rows, last)[1..] == Through(rows[1..], last);
      }
    }
  }

  lemma {:induction false} FindSound(rows: seq<Row>, day: Day)
    ensures Find(rows, day).Some? ==> Find(rows, day).value in rows && Find(rows, day).value.date == day
    ensures Find(rows, day).None? ==> forall row :: row in rows ==> row.date != day
  {
    if rows != [] {
      FindSound(rows[1..], day);
      assert forall row :: row in rows ==> row == rows[0] || row in rows[1..];
    }
  }

  /** Every lookup at a day up to `last` gives the same answer in two histories that agree through `last`. */
  lemma LookupsAgree(h: Loader, k: Loader, last: Day, sym: Symbol, day: Day, first: Day)
    requires AgreeThrough(h, k, last) && day <= last
    ensures GetOhlcv(h, sym, day) == GetOhlcv(k, sym, day)
    ensures GetOhlcvRange(h, sym, first, day) == GetOhlcvRange(k, sym, first, day)
  {
    FindThrough(Rows(h, sym), last, day);
    FindThrough(Rows(k, sym), last, day);
    BetweenThrough(Rows(h, sym), last, first, day);
    BetweenThrough(Rows(k, sym), last, first, day);
  }

  lemma {:induction false} IncreasingEqual(a: seq<Day>, b: seq<Day>)
    requires Increasing(a) && Increasing(b)
    requires forall d :: d in a <==> d in b
    ensures a == b
  {
    assert b != [] ==> b[0] in b;
    if a != [] {
      assert a[0] in a;
      forall d ensures d in a[1..] <==> d in b[1..] {
        if d in a[1..] { assert d in a && d > a[0]; }
        if d in b[1..] { assert d in b && d > b[0]; }
      }
      IncreasingEqual(a[1..], b[1..]);
      assert a == [a[0]] + a[1..] && b == [b[0]] + b[1..];
    }
  }

  lemma HasBarAgrees(h: Loader, k: Loader, last: Day, day: Day)
    requires AgreeThrough(h, k, last) && day <= last && HasBar(h, day)
    ensures HasBar(k, day)
  {
    var sym, i :| sym in h.data && 0 <= i < |h.data[sym]| && h.data[sym][i].date == day;
    var row := h.data[sym][i];
    assert row in Rows(h, sym);
    assert row in Through(Rows(h, sym), last);
    assert row in Rows(k, sym);
    var j :| 0 <= j < |k.data[sym]| && k.data[sym][j] == row;
  }

  /** Trading dates up to `last` are determined by the bars up to `last`. */
  lemma DatesAgree(h: Loader, k: Loader, last: Day, first: Day)
    requires IsHistory(h) && IsHistory(k) && AgreeThrough(h, k, last)
    ensures DatesBetween(h.tradingDates, first, last) == DatesBetween(k.tradingDates, first, last)
  {
    var a, b := DatesBetween(h.tradingDates, first, last), DatesBetween(k.tradingDates, first, last);
    forall d ensures d in a <==> d in b {
      if d in a { HasBarAgrees(h, k, last, d); }
      if d in b { HasBarAgrees(k, h, last, d); }
    }
    DatesBetweenIncreasing(h.tradingDates, first, last);
    DatesBetweenIncreasing(k.tradingDates, first, last);
    IncreasingEqual(a, b);
  }

  /** The first trading date is the same in both histories once any bar exists up to `last`. */
  lemma FirstDateAgrees(h: Loader, k: Loader, last: Day, day: Day)
    requires IsHistory(h) && IsHistory(k) && AgreeThrough(h, k, last)
    requires day <= last && day in h.tradingDates
    ensures |k.tradingDates| > 0 && h.tradingDates[0] == k.tradingDates[0]
  {
    HasBarAgrees(h, k, last, day);
    assert day in k.tradingDates;
    var a, b := h.tradingDates[0], k.tradingDates[0];
    assert a in h.tradingDates && b in k.tradingDates;
    assert a <= day && b <= day;
    HasBarAgrees(h, k, last, a);
    HasBarAgrees(k, h, last, b);
    assert a in k.tradingDates && b in h.tradingDates;
  }

  /** Every date with a bar of `sym` is a trading date. */
  lemma BarsOnTradingDates(h: Loader, sym: Symbol, day: Day)
    requires IsHistory(h) && GetOhlcv(h, sym, day).Some?
    ensures day in h.tradingDates
  {
    FindSound(Rows(h, sym), day);
    var row := GetOhlcv(h, sym, day).value;
    var i :| 0 <= i < |h.data[sym]| && h.data[sym][i] == row;
    assert HasBar(h, day);
  }
}
