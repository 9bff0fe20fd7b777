/**
 * The per-day summary of app.py line 173: `df1.groupby('date').tail(1)` keeps, in ledger
 * order, the last row of every date, projected onto the date, the portfolio value and the
 * closing price.
 */
module DailySummary {

  import opened Bars
  import opened Sessions
  import opened Engine
  import opened Simulation

  /** One row of the summary table: date, portfolio_value and c. */
  datatype DayClose = DayClose(date: int, value: real, close: real)

  /** The positions below n of the rows the summary keeps, in ascending order. */
  function DayEndIndices(bars: seq<Bar>, n: nat): (idx: seq<nat>)
    requires n <= |bars|
    ensures forall k :: 0 <= k < |idx| ==> idx[k] < n && LastOfDate(bars, idx[k])
    ensures forall k, l :: 0 <= k < l < |idx| ==> idx[k] < idx[l]
    ensures forall i :: 0 <= i < n && LastOfDate(bars, i) ==> i in idx
  {
    if n == 0 then []
    else DayEndIndices(bars, n - 1) + (if LastOfDate(bars, n - 1) then [n - 1] else [])
  }

  /** `df2`: the summary of a ledger written over the bars. */
  function Summary(bars: seq<Bar>, rows: seq<Row>): (d: seq<DayClose>)
    requires |rows| == |bars|
    ensures |d| == |DayEndIndices(bars, |bars|)|
  {
    var idx := DayEndIndices(bars, |bars|);
    seq(|idx|, k requires 0 <= k < |idx| =>
      DayClose(bars[idx[k]].date, rows[idx[k]].value, bars[idx[k]].close))
  }

  /** Every date has a bar that no later bar shares, at or after any bar of that date. */
  lemma {:induction false} LastOfDateExists(bars: seq<Bar>, i: nat) returns (j: nat)
    requires i < |bars|
    ensures i <= j < |bars| && bars[j].date == bars[i].date && LastOfDate(bars, j)
    decreases |bars| - i
  {
    if LastOfDate(bars, i) {
      j := i;
    } else {
      var k :| i < k < |bars| && bars[k].date == bars[i].date;
      j := LastOfDateExists(bars, k);
    }
  }

  /** The summary has exactly one row per date: every date of the bars appears, and no
      date appears twice. */
  lemma OneRowPerDate(bars: seq<Bar>, rows: seq<Row>)
    requires |rows| == |bars|
    ensures var d := Summary(bars, rows);
      forall i :: 0 <= i < |bars| ==> exists k :: 0 <= k < |d| && d[k].date == bars[i].date
    ensures var d := Summary(bars, rows);
      forall k, l :: 0 <= k < l < |d| ==> d[k].date != d[l].date
  {
    var d := Summary(bars, rows);
    var idx := DayEndIndices(bars, |bars|);
    forall i | 0 <= i < |bars|
      ensures exists k :: 0 <= k < |d| && d[k].date == bars[i].date
    {
      var j := LastOfDateExists(bars, i);
      var k :| 0 <= k < |idx| && idx[k] == j;
      assert d[k].date == bars[i].date;
    }
  }

  /** On chronological bars the summary's dates strictly increase. */
  lemma DatesAscend(bars: seq<Bar>, rows: seq<Row>)
    requires |rows| == |bars|
    requires Chronological(bars)
    ensures var d := Summary(bars, rows);
      forall k, l :: 0 <= k < l < |d| ==> d[k].date < d[l].date
  {
  }

  /** Row i is the last row of its date, the summary entry e is taken from it, and it is
      flat: no shares, its value all cash. */
  predicate FlatDayEnd(bars: seq<Bar>, rows: seq<Row>, i: nat, e: DayClose)
    requires |rows| == |bars|
  {
    i < |bars| && LastOfDate(bars, i) && e == DayClose(bars[i].date, rows[i].value, bars[i].close) &&
    rows[i].shares == 0 && rows[i].value == rows[i].cash
  }

  /** Each row of the summary is the ledger's last row of its date, and on chronological
      bars that row is flat: its portfolio value is pure cash, the trades of the day having
      been closed out at the day's last minute. */
  lemma SummaryEndsFlat(cfg: Config, bars: seq<Bar>, rows: seq<Row>)
    requires PositivePrices(bars)
    requires Chronological(bars)
    requires rows == Ledger(cfg, bars)
    ensures var d, idx := Summary(bars, rows), DayEndIndices(bars, |bars|);
      forall k :: 0 <= k < |d| ==> FlatDayEnd(bars, rows, idx[k], d[k])
  {
    var idx := DayEndIndices(bars, |bars|);
    forall k | 0 <= k < |idx|
      ensures FlatDayEnd(bars, rows, idx[k], Summary(bars, rows)[k])
    {
      FlatAtDayEnd(cfg, bars, idx[k]);
    }
  }
}
