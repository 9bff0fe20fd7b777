/**
 * The input of the backtest: minute bars that have already been loaded, converted to
 * US/Eastern time and restricted to the 09:30-16:00 session, each annotated with the
 * RSI value computed over the unfiltered series.
 */
module Bars {

  import opened Wrappers

  /** One minute bar: instant `time` (epoch milliseconds), calendar `date` (a day number
      in the venue's timezone), closing price and the RSI of that minute (None = null/NaN). */
  datatype Bar = Bar(time: int, date: int, close: real, rsi: Option<real>)

  /** Bars in ascending time order; the date, a monotone function of the instant, never goes back. */
  predicate Chronological(bars: seq<Bar>)
  {
    forall i, j :: 0 <= i < j < |bars| ==> bars[i].time < bars[j].time && bars[i].date <= bars[j].date
  }

  /** Every closing price is positive. */
  predicate PositivePrices(bars: seq<Bar>)
  {
    forall i :: 0 <= i < |bars| ==> bars[i].close > 0.0
  }
}
