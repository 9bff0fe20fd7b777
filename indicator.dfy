/**
 * The RSI indicator of app.py (lines 47-56): differences of closes are split into gains
 * and losses, each is averaged over a full 14-observation window, and
 * rsi = 100 - 100 / (1 + avg_gain / avg_loss). The first 14 positions are forced to null.
 * Arithmetic is exact; the two divisions by a zero average loss are separate branches.
 */
module Indicator {

  import opened Wrappers

  /** `window_length`: observations per moving average. */
  const Window: nat := 14

  /** The upward move into bar i. Bar 0 has no predecessor: its NaN difference fails
      `delta > 0` and is replaced by 0. */
  function Gain(c: seq<real>, i: nat): (g: real)
    requires i < |c|
    ensures g >= 0.0
    ensures i > 0 ==> g >= c[i] - c[i - 1]
  {
    if i > 0 && c[i] - c[i - 1] > 0.0 then c[i] - c[i - 1] else 0.0
  }

  /** The downward move into bar i, as a non-negative amount (0 for bar 0). */
  function Loss(c: seq<real>, i: nat): (l: real)
    requires i < |c|
    ensures l >= 0.0
    ensures i > 0 ==> l >= c[i - 1] - c[i]
  {
    if i > 0 && c[i] - c[i - 1] < 0.0 then -(c[i] - c[i - 1]) else 0.0
  }

  /** Sum of the gains of bars lo .. hi-1. */
  function SumGains(c: seq<real>, lo: nat, hi: nat): (s: real)
    requires lo <= hi <= |c|
    ensures s >= 0.0
    decreases hi - lo
  {
    if lo == hi then 0.0 else SumGains(c, lo, hi - 1) + Gain(c, hi - 1)
  }

  /** Sum of the losses of bars lo .. hi-1. */
  function SumLosses(c: seq<real>, lo: nat, hi: nat): (s: real)
    requires lo <= hi <= |c|
    ensures s >= 0.0
    decreases hi - lo
  {
    if lo == hi then 0.0 else SumLosses(c, lo, hi - 1) + Loss(c, hi - 1)
  }

  /** The rolling mean of gains ending at bar i (defined once the window is full). */
  function AvgGain(c: seq<real>, i: nat): (a: real)
    requires Window - 1 <= i < |c|
    ensures a >= 0.0
  {
    SumGains(c, i + 1 - Window, i + 1) / Window as real
  }

  /** The rolling mean of losses ending at bar i. */
  function AvgLoss(c: seq<real>, i: nat): (a: real)
    requires Window - 1 <= i < |c|
    ensures a >= 0.0
  {
    SumLosses(c, i + 1 - Window, i + 1) / Window as real
  }

  /** The RSI of bar i. Positions 0..13 are null. With a zero average loss the ratio is
      +inf when there were gains (so the RSI is 100) and NaN when there were none (null). */
  function RsiAt(c: seq<real>, i: nat): (r: Option<real>)
    requires i < |c|
    ensures i < Window ==> r == None
    ensures r.Some? ==> 0.0 <= r.value <= 100.0
  {
    if i < Window then None
    else
      var g, l := AvgGain(c, i), AvgLoss(c, i);
      if l > 0.0 then
        var rs := g / l;
        assert 1.0 + rs >= 1.0;
        Some(100.0 - 100.0 / (1.0 + rs))
      else if g > 0.0 then Some(100.0)
      else None
  }

  /** The RSI column for a series of closes. */
  function Rsi(c: seq<real>): (r: seq<Option<real>>)
    ensures |r| == |c|
    ensures forall i :: 0 <= i < |r| && i < Window ==> r[i] == None
    ensures forall i :: 0 <= i < |r| && r[i].Some? ==> 0.0 <= r[i].value <= 100.0
    ensures forall i :: 0 <= i < |r| ==> r[i] == RsiAt(c, i)
  {
    seq(|c|, i requires 0 <= i < |c| => RsiAt(c, i))
  }

  /** Each price change goes wholly to the gain or wholly to the loss: at most one of the
      two is non-zero, their difference is the change, and bar 0 has neither. */
  lemma GainLossSplit(c: seq<real>, i: nat)
    requires i < |c|
    ensures Gain(c, i) == 0.0 || Loss(c, i) == 0.0
    ensures i > 0 ==> Gain(c, i) - Loss(c, i) == c[i] - c[i - 1]
    ensures i == 0 ==> Gain(c, i) == 0.0 && Loss(c, i) == 0.0
  {
  }

  /** With a zero average loss the ratio divides by zero: +inf (RSI 100) when there were
      gains, NaN (null) when there were none. */
  lemma RsiZeroLoss(c: seq<real>, i: nat)
    requires Window <= i < |c|
    requires AvgLoss(c, i) == 0.0
    ensures RsiAt(c, i) == (if AvgGain(c, i) > 0.0 then Some(100.0) else None)
  {
  }

  /** The RSI is defined exactly past the null prefix where the window saw some movement. */
  lemma RsiDefinedIff(c: seq<real>, i: nat)
    requires i < |c|
    ensures RsiAt(c, i).Some? <==> i >= Window && (AvgGain(c, i) > 0.0 || AvgLoss(c, i) > 0.0)
  {
  }

  /** A 14-bar window in which the price never falls but does rise ends at an RSI of
      exactly 100 (`rs` is +inf). */
  lemma RsiOfRisingWindow(c: seq<real>, i: nat)
    requires Window <= i < |c|
    requires forall k :: i + 1 - Window <= k <= i ==> c[k] >= c[k - 1]
    requires c[i] > c[i - Window]
    ensures RsiAt(c, i) == Some(100.0)
  {
    RisingWindow(c, i + 1 - Window, i + 1);
    RsiZeroLoss(c, i);
  }

  /** Over a window the gains minus the losses telescope to the net price move. */
  lemma {:induction false} NetMove(c: seq<real>, lo: nat, hi: nat)
    requires 1 <= lo <= hi <= |c|
    ensures SumGains(c, lo, hi) - SumLosses(c, lo, hi) == c[hi - 1] - c[lo - 1]
    decreases hi - lo
  {
    if lo < hi {
      NetMove(c, lo, hi - 1);
    }
  }

  /** The size of the price move into bar k, whatever its direction. */
  function Move(c: seq<real>, k: nat): (m: real)
    requires 0 < k < |c|
    ensures m >= 0.0
  {
    if c[k] >= c[k - 1] then c[k] - c[k - 1] else c[k - 1] - c[k]
  }

  /** The total distance the price travels over the moves into bars lo .. hi-1. */
  function Travel(c: seq<real>, lo: nat, hi: nat): (t: real)
    requires 1 <= lo <= hi <= |c|
    ensures t >= 0.0
    decreases hi - lo
  {
    if lo == hi then 0.0 else Travel(c, lo, hi - 1) + Move(c, hi - 1)
  }

  /** Over a window the gains plus the losses add up to the distance travelled; with
      NetMove this fixes both totals: gains = (travel + net) / 2, losses = (travel - net) / 2. */
  lemma {:induction false} MoveSplit(c: seq<real>, lo: nat, hi: nat)
    requires 1 <= lo <= hi <= |c|
    ensures SumGains(c, lo, hi) + SumLosses(c, lo, hi) == Travel(c, lo, hi)
    decreases hi - lo
  {
    if lo < hi {
      MoveSplit(c, lo, hi - 1);
    }
  }

  /** The two 14-bar averages in closed form over the window ending at bar i: half the
      distance travelled plus or minus half the net move, divided by the window length. */
  lemma AverageLevels(c: seq<real>, i: nat)
    requires Window <= i < |c|
    ensures var lo := i + 1 - Window;
      AvgGain(c, i) == (Travel(c, lo, i + 1) + (c[i] - c[lo - 1])) / (2.0 * Window as real)
    ensures var lo := i + 1 - Window;
      AvgLoss(c, i) == (Travel(c, lo, i + 1) - (c[i] - c[lo - 1])) / (2.0 * Window as real)
  {
    var lo := i + 1 - Window;
    MoveSplit(c, lo, i + 1);
    NetMove(c, lo, i + 1);
  }

  /** A window in which the price never falls has no losses, and its gains are the net rise. */
  lemma {:induction false} RisingWindow(c: seq<real>, lo: nat, hi: nat)
    requires 1 <= lo <= hi <= |c|
    requires forall k :: lo <= k < hi ==> c[k] >= c[k - 1]
    ensures SumLosses(c, lo, hi) == 0.0
    ensures SumGains(c, lo, hi) == c[hi - 1] - c[lo - 1]
    decreases hi - lo
  {
    if lo < hi {
      RisingWindow(c, lo, hi - 1);
    }
  }

  /** Where the average loss is positive, the RSI is 100 * avg_gain / (avg_gain + avg_loss),
      strictly below 100. */
  lemma RsiClosedForm(c: seq<real>, i: nat)
    requires Window <= i < |c|
    requires AvgLoss(c, i) > 0.0
    ensures RsiAt(c, i).Some?
    ensures RsiAt(c, i).value * (AvgGain(c, i) + AvgLoss(c, i)) == 100.0 * AvgGain(c, i)
    ensures RsiAt(c, i).value < 100.0
  {
  }

  /** For v * (g + l) == 100 * g with g + l > 0, comparing v with k is comparing
      100 * g with k * (g + l). */
  lemma ScaledThreshold(v: real, g: real, l: real, k: real)
    requires g + l > 0.0
    requires v * (g + l) == 100.0 * g
    ensures v < k <==> 100.0 * g < k * (g + l)
    ensures v > k <==> 100.0 * g > k * (g + l)
  {
    assert v * (g + l) - k * (g + l) == (v - k) * (g + l);
  }

  /** The entry threshold: RSI < 30 exactly when 7 * avg_gain < 3 * avg_loss. */
  lemma OversoldIff(c: seq<real>, i: nat)
    requires Window <= i < |c|
    ensures (RsiAt(c, i).Some? && RsiAt(c, i).value < 30.0) <==> 7.0 * AvgGain(c, i) < 3.0 * AvgLoss(c, i)
  {
    var g, l := AvgGain(c, i), AvgLoss(c, i);
    if l > 0.0 {
      RsiClosedForm(c, i);
      ScaledThreshold(RsiAt(c, i).value, g, l, 30.0);
    }
  }

  /** The exit threshold: RSI > 70 exactly when 3 * avg_gain > 7 * avg_loss. */
  lemma OverboughtIff(c: seq<real>, i: nat)
    requires Window <= i < |c|
    ensures (RsiAt(c, i).Some? && RsiAt(c, i).value > 70.0) <==> 3.0 * AvgGain(c, i) > 7.0 * AvgLoss(c, i)
  {
    var g, l := AvgGain(c, i), AvgLoss(c, i);
    if l > 0.0 {
      RsiClosedForm(c, i);
      ScaledThreshold(RsiAt(c, i).value, g, l, 70.0);
    }
  }

  /** A close above the close 14 bars earlier gives an RSI above 50; below it, under 50. */
  lemma RsiFollowsTrend(c: seq<real>, i: nat)
    requires Window <= i < |c|
    ensures c[i] > c[i - Window] ==> RsiAt(c, i).Some? && RsiAt(c, i).value > 50.0
    ensures c[i] < c[i - Window] ==> RsiAt(c, i).Some? && RsiAt(c, i).value < 50.0
  {
    NetMove(c, i + 1 - Window, i + 1);
    var g, l := AvgGain(c, i), AvgLoss(c, i);
    assert g - l == (c[i] - c[i - Window]) / Window as real;
    if l > 0.0 {
      RsiClosedForm(c, i);
      ScaledThreshold(RsiAt(c, i).value, g, l, 50.0);
    }
  }
}
