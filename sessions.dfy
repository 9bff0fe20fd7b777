/**
 * Day segmentation (app.py line 90): for every bar, the latest timestamp among the bars
 * that share its date (`groupby('date')['datetime_est'].transform('max')`). The engine
 * treats a bar whose own timestamp equals that value as the last bar of its day.
 */
module Sessions {

  import opened Bars

  /** The larger of t0 and the latest time among bars[..n] dated d. */
  function LatestOn(bars: seq<Bar>, d: int, n: nat, t0: int): (t: int)
    requires n <= |bars|
    ensures t >= t0
    ensures forall j :: 0 <= j < n && bars[j].date == d ==> bars[j].time <= t
    ensures t == t0 || exists j :: 0 <= j < n && bars[j].date == d && bars[j].time == t
  {
    if n == 0 then t0
    else
      var m := LatestOn(bars, d, n - 1, t0);
      if bars[n - 1].date == d && bars[n - 1].time > m then bars[n - 1].time else m
  }

  /** `last_minutes[i]`: the greatest timestamp of any bar on bar i's date. */
  function LastMinute(bars: seq<Bar>, i: nat): (t: int)
    requires i < |bars|
    ensures forall j :: 0 <= j < |bars| && bars[j].date == bars[i].date ==> bars[j].time <= t
    ensures exists j :: 0 <= j < |bars| && bars[j].date == bars[i].date && bars[j].time == t
  {
    LatestOn(bars, bars[i].date, |bars|, bars[i].time)
  }

  /** The whole `last_minutes` column. */
  function LastMinutes(bars: seq<Bar>): (r: seq<int>)
    ensures |r| == |bars|
    ensures forall i :: 0 <= i < |bars| ==> r[i] == LastMinute(bars, i)
  {
    seq(|bars|, i requires 0 <= i < |bars| => LastMinute(bars, i))
  }

  /** The forced-liquidation test of the trading loop: the bar's own timestamp is the day's latest. */
  predicate AtLastMinute(bars: seq<Bar>, i: nat)
    requires i < |bars|
  {
    bars[i].time == LastMinute(bars, i)
  }

  /** No later bar has the same date (the row `groupby('date').tail(1)` keeps). */
  predicate LastOfDate(bars: seq<Bar>, i: nat)
    requires i < |bars|
  {
    forall j :: i < j < |bars| ==> bars[j].date != bars[i].date
  }

  /** The next bar, if any, starts another day. */
  predicate EndsDay(bars: seq<Bar>, i: nat)
    requires i < |bars|
  {
    i + 1 == |bars| || bars[i + 1].date != bars[i].date
  }

  /** On chronological bars the three notions of "last bar of its day" coincide: the
      timestamp test, the group's last row and the adjacent-date test. */
  lemma DayEndCharacterised(bars: seq<Bar>, i: nat)
    requires Chronological(bars)
    requires i < |bars|
    ensures AtLastMinute(bars, i) <==> EndsDay(bars, i)
    ensures LastOfDate(bars, i) <==> EndsDay(bars, i)
  {
  }

  /** Every bar between two bars of one date has that date, so none of them ends the day. */
  lemma DaysPartition(bars: seq<Bar>, i: nat, j: nat)
    requires Chronological(bars)
    requires i <= j < |bars| && bars[i].date == bars[j].date
    ensures forall k :: i <= k <= j ==> bars[k].date == bars[i].date
    ensures forall k :: i <= k < j ==> !EndsDay(bars, k)
  {
  }
}
