/**
 * The trading loop of app.py (lines 69-166) over the session-filtered bars: a fold of
 * Engine.Step over the bars specifies the ledger, Backtest is the loop itself writing
 * the ledger rows in place, and the lemmas state what holds of every ledger.
 */
module Simulation {

  import opened Wrappers
  import opened Bars
  import opened Sessions
  import opened Engine

  /** The carried variables and the rows written after the first n bars. */
  datatype Replay = Replay(state: State, rows: seq<Row>)

  /** The loop run over bars[..n]; each bar learns from the day segmentation whether it
      is its day's last minute. */
  function RunPrefix(cfg: Config, bars: seq<Bar>, n: nat): (r: Replay)
    requires PositivePrices(bars)
    requires n <= |bars|
    ensures |r.rows| == n
  {
    if n == 0 then Replay(Initial(cfg), [])
    else
      var before := RunPrefix(cfg, bars, n - 1);
      var t := Step(cfg, before.state, bars[n - 1], AtLastMinute(bars, n - 1));
      Replay(t.next, before.rows + [t.row])
  }

  /** The carried variables on entry to bar i. */
  function StateBefore(cfg: Config, bars: seq<Bar>, i: nat): State
    requires PositivePrices(bars)
    requires i <= |bars|
  {
    RunPrefix(cfg, bars, i).state
  }

  /** The whole ledger (df1's cash, shares, portfolio_value, signal and stoploss columns). */
  function Ledger(cfg: Config, bars: seq<Bar>): (rows: seq<Row>)
    requires PositivePrices(bars)
    ensures |rows| == |bars|
  {
    RunPrefix(cfg, bars, |bars|).rows
  }

  /** Rules 1 and 2 of one iteration on the carried variables: the forced end-of-day
      liquidation, then the end of a kill halt recorded for another date. */
  method OpenBar(s: State, b: Bar, isLast: bool) returns (o: State, forcedSell: bool)
    requires b.close > 0.0
    ensures o == Opening(s, b, isLast)
    ensures forcedSell == ForcedClose(s, isLast)
  {
    var cash, shares, stoplossHit, prevValue, killDate := s.cash, s.shares, s.stoplossHit, s.prevValue, s.killDate;
    var price := b.close;
    forcedSell := false;
    if isLast && shares > 0 {
      cash := cash + shares as real * price;
      shares := 0;
      forcedSell := true;
    }
    if killDate.Some? && b.date != killDate.value {
      stoplossHit := false;
      prevValue := cash + shares as real * price;
      killDate := None;
    }
    o := State(cash, shares, stoplossHit, prevValue, killDate);
  }

  /** Rules 5 and 6 outside the last minute: the RSI < 30 entry with the floor-sized quantity,
      then the RSI > 70 exit. */
  method TradeBar(cfg: Config, o: State, b: Bar, isLast: bool) returns (x: State, bought: bool, sold: bool)
    requires b.close > 0.0
    ensures x == Exit(Entry(cfg, o, b, isLast), b, isLast)
    ensures bought == Buys(cfg, o, b, isLast)
    ensures sold == Sells(Entry(cfg, o, b, isLast), b, isLast)
  {
    var cash, shares, stoplossHit := o.cash, o.shares, o.stoplossHit;
    var price, rsi := b.close, b.rsi;
    bought, sold := false, false;
    if !isLast {
      if !stoplossHit && Oversold(rsi) {
        var sharesToBuy := BuyQuantity(cfg, price);
        var cost := sharesToBuy as real * price;
        if cash >= cost && sharesToBuy > 0 {
          cash := cash - cost;
          shares := shares + sharesToBuy;
          bought := true;
        }
      }
      if !stoplossHit && Overbought(rsi) && shares > 0 {
        cash := cash + shares as real * price;
        shares := 0;
        sold := true;
      }
    }
    x := o.(cash := cash, shares := shares);
  }

  /** Rule 4 once the stoploss fires: liquidate at the bar's close, record the row with
      the stoploss flag, start the cool-down and, with the kill switch, halt the date. */
  method StopBar(cfg: Config, o: State, b: Bar, tag: Signal, preset: Row) returns (next: State, row: Row)
    requires preset == BlankRow(cfg).(signal := tag)
    ensures Transition(next, row) == StopOut(cfg, o, b, tag)
  {
    var cash := o.cash + o.shares as real * b.close;
    var halt := if cfg.killSwitch then Some(b.date) else o.killDate;
    row := preset.(stoploss := true, cash := cash, shares := 0, value := cash + 0 as real * b.close);
    next := State(cash, 0, true, cash, halt);
  }

  /** Rules 5 to 8 when the stoploss does not fire: trade on the RSI, write the row, carry
      the baseline and, without the kill switch, clear the cool-down flag. */
  method SettleBar(cfg: Config, o: State, b: Bar, isLast: bool, tag: Signal, preset: Row) returns (next: State, row: Row)
    requires b.close > 0.0
    requires preset == BlankRow(cfg).(signal := tag)
    ensures Transition(next, row) == Settle(cfg, o, b, isLast, tag)
  {
    row := preset;
    var x, bought, sold := TradeBar(cfg, o, b, isLast);
    if bought {
      row := row.(signal := Buy);
    }
    if sold {
      row := row.(signal := Sell);
    }
    row := row.(cash := x.cash, shares := x.shares, value := x.cash + x.shares as real * b.close);
    next := x.(prevValue := x.cash + x.shares as real * b.close);
    if !cfg.killSwitch {
      next := next.(stoplossHit := false);
    }
  }

  /** One iteration of the trading loop, starting from the preset row: it returns the
      carried variables for the next bar and the row written for this one. */
  method ProcessBar(cfg: Config, s: State, b: Bar, isLast: bool, preset: Row) returns (next: State, row: Row)
    requires b.close > 0.0
    requires preset == BlankRow(cfg)
    ensures Transition(next, row) == Step(cfg, s, b, isLast)
  {
    row := preset;
    var o, forcedSell := OpenBar(s, b, isLast);
    if forcedSell {
      row := row.(signal := Sell);
    }
    var stoplossLimit := cfg.capital * cfg.stoplossFraction;
    var value := o.cash + o.shares as real * b.close;
    if !isLast && !o.stoplossHit && value - o.prevValue < -stoplossLimit {
      next, row := StopBar(cfg, o, b, row.signal, row);
      return;
    }
    next, row := SettleBar(cfg, o, b, isLast, row.signal, row);
  }

  /** The trading loop: presets every row, then walks the bars in order, carrying the
      loop variables from bar to bar and writing row i in place. */
  method Backtest(cfg: Config, bars: seq<Bar>) returns (ledger: array<Row>)
    requires PositivePrices(bars)
    ensures ledger.Length == |bars|
    ensures ledger[..] == Ledger(cfg, bars)
  {
    ledger := new Row[|bars|](_ => BlankRow(cfg));
    var state := Initial(cfg);
    var lastMinutes := LastMinutes(bars);
    for i := 0 to |bars|
      invariant forall j :: i <= j < |bars| ==> ledger[j] == BlankRow(cfg)
      invariant ledger[..i] == RunPrefix(cfg, bars, i).rows
      invariant state == RunPrefix(cfg, bars, i).state
    {
      var isLast := bars[i].time == lastMinutes[i];
      var row;
      state, row := ProcessBar(cfg, state, bars[i], isLast, ledger[i]);
      ledger[i] := row;
      assert ledger[..i + 1] == ledger[..i] + [ledger[i]];
    }
    assert ledger[..] == ledger[..|bars|];
  }

  /** The transition the loop performs at bar i. */
  function Transit(cfg: Config, bars: seq<Bar>, i: nat): Transition
    requires PositivePrices(bars)
    requires i < |bars|
  {
    Step(cfg, StateBefore(cfg, bars, i), bars[i], AtLastMinute(bars, i))
  }

  /** Later bars never rewrite an earlier row. */
  lemma {:induction false} PrefixStable(cfg: Config, bars: seq<Bar>, n: nat, m: nat)
    requires PositivePrices(bars)
    requires n <= m <= |bars|
    ensures RunPrefix(cfg, bars, m).rows[..n] == RunPrefix(cfg, bars, n).rows
    decreases m - n
  {
    if n < m {
      PrefixStable(cfg, bars, n, m - 1);
      assert RunPrefix(cfg, bars, m).rows[..n] == RunPrefix(cfg, bars, m - 1).rows[..n];
    }
  }

  /** Ledger row i is the row the transition at bar i writes, and that transition yields
      the variables bar i + 1 starts from. */
  lemma RowAt(cfg: Config, bars: seq<Bar>, i: nat)
    requires PositivePrices(bars)
    requires i < |bars|
    ensures Ledger(cfg, bars)[i] == Transit(cfg, bars, i).row
    ensures StateBefore(cfg, bars, i + 1) == Transit(cfg, bars, i).next
  {
    PrefixStable(cfg, bars, i + 1, |bars|);
    assert Ledger(cfg, bars)[i] == Ledger(cfg, bars)[..i + 1][i];
  }

  /** The carried variables satisfy the invariant before every bar, and with a non-negative
      initial capital the cash never goes negative. */
  lemma {:induction false} StatesConsistent(cfg: Config, bars: seq<Bar>, i: nat)
    requires PositivePrices(bars)
    requires i <= |bars|
    ensures Consistent(cfg, StateBefore(cfg, bars, i))
    ensures cfg.capital >= 0.0 ==> StateBefore(cfg, bars, i).cash >= 0.0
  {
    if i > 0 {
      StatesConsistent(cfg, bars, i - 1);
      var s := StateBefore(cfg, bars, i - 1);
      StepConsistent(cfg, s, bars[i - 1], AtLastMinute(bars, i - 1));
      if cfg.capital >= 0.0 {
        StepSolvent(cfg, s, bars[i - 1], AtLastMinute(bars, i - 1));
      }
    }
  }

  /** Every row's portfolio value is its cash plus its shares marked at that bar's close;
      no row is short, and none holds negative cash when the capital is non-negative. */
  lemma LedgerBalanced(cfg: Config, bars: seq<Bar>, i: nat)
    requires PositivePrices(bars)
    requires i < |bars|
    ensures var r := Ledger(cfg, bars)[i];
      r.value == Equity(r.cash, r.shares, bars[i].close) && r.shares >= 0 &&
      (cfg.capital >= 0.0 ==> r.cash >= 0.0)
  {
    RowAt(cfg, bars, i);
    StatesConsistent(cfg, bars, i + 1);
  }

  /** Bar i starts from the position and value recorded in row i - 1, and its own row is
      worth that position marked at its close. */
  lemma RowLinks(cfg: Config, bars: seq<Bar>, i: nat)
    requires PositivePrices(bars)
    requires 0 < i < |bars|
    ensures var prev, s := Ledger(cfg, bars)[i - 1], StateBefore(cfg, bars, i);
      s.cash == prev.cash && s.shares == prev.shares && s.prevValue == prev.value &&
      Ledger(cfg, bars)[i].value == Equity(prev.cash, prev.shares, bars[i].close)
  {
    RowAt(cfg, bars, i);
    RowAt(cfg, bars, i - 1);
  }

  /** Re-marking a position at a new price changes its value by shares * price move. */
  lemma EquityMove(c: real, h: int, p: real, q: real)
    ensures Equity(c, h, q) == Equity(c, h, p) + h as real * (q - p)
  {
    assert h as real * q == h as real * p + h as real * (q - p);
  }

  /** The portfolio value starts at the initial capital and then moves only with the price
      of the shares held: trades and the stoploss happen at the bar's price and leave it as is. */
  lemma ValueChange(cfg: Config, bars: seq<Bar>, i: nat)
    requires PositivePrices(bars)
    requires i < |bars|
    ensures i == 0 ==> Ledger(cfg, bars)[0].value == cfg.capital
    ensures i > 0 ==> var rows := Ledger(cfg, bars);
      rows[i].value == rows[i - 1].value + rows[i - 1].shares as real * (bars[i].close - bars[i - 1].close)
  {
    if i == 0 {
      RowAt(cfg, bars, 0);
      assert 0 as real * bars[0].close == 0.0;
    } else {
      RowLinks(cfg, bars, i);
      LedgerBalanced(cfg, bars, i - 1);
      var prev := Ledger(cfg, bars)[i - 1];
      EquityMove(prev.cash, prev.shares, bars[i - 1].close, bars[i].close);
    }
  }

  /** When the stoploss fires at bar i (with a non-negative limit), bar i is not the first,
      and the position of row i - 1 marked at bar i's close lost more than the limit against
      row i - 1's value. */
  lemma StoplossDrawdown(cfg: Config, bars: seq<Bar>, i: nat)
    requires PositivePrices(bars)
    requires i < |bars|
    requires StoplossLimit(cfg) >= 0.0
    requires Ledger(cfg, bars)[i].stoploss
    ensures i > 0
    ensures var prev := Ledger(cfg, bars)[i - 1];
      Equity(prev.cash, prev.shares, bars[i].close) - prev.value < -StoplossLimit(cfg)
  {
    RowAt(cfg, bars, i);
    var s := StateBefore(cfg, bars, i);
    var isLast := AtLastMinute(bars, i);
    StepStoploss(cfg, s, bars[i], isLast);
    if HaltExpires(s, bars[i]) {
      StepHaltExpiry(cfg, s, bars[i], isLast);
    }
    assert Opening(s, bars[i], isLast) == s;
    if i > 0 {
      RowLinks(cfg, bars, i);
    }
  }

  /** A flat or long position can lose value only through a price fall on held shares. */
  lemma LossNeedsFall(c: real, h: int, p: real, q: real, limit: real)
    requires h >= 0 && limit >= 0.0
    requires Equity(c, h, q) - Equity(c, h, p) < -limit
    ensures h > 0 && q < p && h as real * (p - q) > limit
  {
    EquityMove(c, h, p, q);
    var x := h as real;
    assert x * (q - p) < -limit;
    assert x * (p - q) == -(x * (q - p));
    if q >= p {
      MulNonNegative(x, q - p);
    }
  }

  lemma MulNonNegative(x: real, y: real)
    requires x >= 0.0 && y >= 0.0
    ensures x * y >= 0.0
  {
  }

  /** With a non-negative limit the stoploss fires only after the previous row held shares
      and the price fell far enough that those shares lost more than the limit. */
  lemma StoplossNeedsDrop(cfg: Config, bars: seq<Bar>, i: nat)
    requires PositivePrices(bars)
    requires i < |bars|
    requires StoplossLimit(cfg) >= 0.0
    requires Ledger(cfg, bars)[i].stoploss
    ensures i > 0
    ensures var prev := Ledger(cfg, bars)[i - 1];
      prev.shares > 0 && bars[i].close < bars[i - 1].close &&
      prev.shares as real * (bars[i - 1].close - bars[i].close) > StoplossLimit(cfg)
  {
    StoplossDrawdown(cfg, bars, i);
    LedgerBalanced(cfg, bars, i - 1);
    var prev := Ledger(cfg, bars)[i - 1];
    LossNeedsFall(prev.cash, prev.shares, bars[i - 1].close, bars[i].close, StoplossLimit(cfg));
  }

  /** On chronological bars the last bar of every date (the one the day summary keeps) is
      flat: nothing is bought, the stoploss is not tested, and it is tagged as a sell
      exactly when shares were carried into it. */
  lemma FlatAtDayEnd(cfg: Config, bars: seq<Bar>, i: nat)
    requires PositivePrices(bars)
    requires Chronological(bars)
    requires i < |bars|
    requires LastOfDate(bars, i)
    ensures var r := Ledger(cfg, bars)[i];
      r.shares == 0 && r.value == r.cash && !r.stoploss && r.signal != Buy &&
      (r.signal == Sell <==> StateBefore(cfg, bars, i).shares > 0)
  {
    DayEndCharacterised(bars, i);
    RowAt(cfg, bars, i);
    StatesConsistent(cfg, bars, i);
    StepDayEnd(cfg, StateBefore(cfg, bars, i), bars[i]);
    LedgerBalanced(cfg, bars, i);
  }

  /** Without the kill switch the stoploss flag is armed on entry to a bar exactly when
      the previous bar fired the stoploss. */
  lemma CooldownFlag(cfg: Config, bars: seq<Bar>, i: nat)
    requires PositivePrices(bars)
    requires !cfg.killSwitch
    requires i < |bars|
    ensures StateBefore(cfg, bars, i + 1).stoplossHit <==> Ledger(cfg, bars)[i].stoploss
  {
    RowAt(cfg, bars, i);
    StepFlagCarry(cfg, StateBefore(cfg, bars, i), bars[i], AtLastMinute(bars, i));
  }

  /** A stoploss at bar i leaves the next bar the cash it raised, no shares, the flag armed,
      the cash as baseline and, under the kill switch, the halt recorded for bar i's date. */
  lemma StoplossState(cfg: Config, bars: seq<Bar>, i: nat)
    requires PositivePrices(bars)
    requires i < |bars|
    requires Ledger(cfg, bars)[i].stoploss
    ensures var c := Ledger(cfg, bars)[i].cash;
      StateBefore(cfg, bars, i + 1) == State(c, 0, true, c, if cfg.killSwitch then Some(bars[i].date) else None)
  {
    RowAt(cfg, bars, i);
    StatesConsistent(cfg, bars, i);
    StepStoploss(cfg, StateBefore(cfg, bars, i), bars[i], AtLastMinute(bars, i));
  }

  /** A bar entered flat with the flag armed, the cash as baseline and no halt lapsing
      writes a quiet row and passes the same variables on (the flag only under the kill switch). */
  lemma QuietBar(cfg: Config, bars: seq<Bar>, j: nat, c: real, halt: Option<int>)
    requires PositivePrices(bars)
    requires j < |bars|
    requires StateBefore(cfg, bars, j) == State(c, 0, true, c, halt)
    requires halt.Some? ==> halt.value == bars[j].date
    ensures Ledger(cfg, bars)[j] == Row(c, 0, c, NoSignal, false)
    ensures StateBefore(cfg, bars, j + 1) == State(c, 0, cfg.killSwitch, c, halt)
  {
    RowAt(cfg, bars, j);
    StepWhileHalted(cfg, c, halt, bars[j], AtLastMinute(bars, j));
  }

  /** Without the kill switch a stoploss silences exactly the next bar: that row holds the
      same cash, no shares and no signal, and the bar after it starts with the flag clear. */
  lemma CooldownLastsOneBar(cfg: Config, bars: seq<Bar>, i: nat)
    requires PositivePrices(bars)
    requires !cfg.killSwitch
    requires i + 1 < |bars|
    requires Ledger(cfg, bars)[i].stoploss
    ensures var c := Ledger(cfg, bars)[i].cash;
      Ledger(cfg, bars)[i + 1] == Row(c, 0, c, NoSignal, false)
    ensures !StateBefore(cfg, bars, i + 2).stoplossHit
  {
    StoplossState(cfg, bars, i);
    QuietBar(cfg, bars, i + 1, Ledger(cfg, bars)[i].cash, None);
  }

  /** Under the kill switch, from a stoploss at bar i until the last bar of that date the
      carried variables stay frozen: flat, the flag armed and the halt recorded for that date. */
  lemma {:induction false} HaltedState(cfg: Config, bars: seq<Bar>, i: nat, j: nat)
    requires PositivePrices(bars)
    requires Chronological(bars)
    requires cfg.killSwitch
    requires i < j <= |bars|
    requires Ledger(cfg, bars)[i].stoploss
    requires bars[j - 1].date == bars[i].date
    ensures var c := Ledger(cfg, bars)[i].cash;
      StateBefore(cfg, bars, j) == State(c, 0, true, c, Some(bars[i].date))
    decreases j
  {
    if j == i + 1 {
      StoplossState(cfg, bars, i);
    } else {
      HaltedState(cfg, bars, i, j - 1);
      QuietBar(cfg, bars, j - 1, Ledger(cfg, bars)[i].cash, Some(bars[i].date));
    }
  }

  /** The kill switch halts the rest of the day: every later bar of the same date writes a
      quiet row with the cash the stoploss left, no shares, no signal and no stoploss. */
  lemma KillSwitchHaltsDay(cfg: Config, bars: seq<Bar>, i: nat, j: nat)
    requires PositivePrices(bars)
    requires Chronological(bars)
    requires cfg.killSwitch
    requires i < j < |bars|
    requires Ledger(cfg, bars)[i].stoploss
    requires bars[j].date == bars[i].date
    ensures var c := Ledger(cfg, bars)[i].cash;
      Ledger(cfg, bars)[j] == Row(c, 0, c, NoSignal, false)
  {
    HaltedState(cfg, bars, i, j);
    QuietBar(cfg, bars, j, Ledger(cfg, bars)[i].cash, Some(bars[i].date));
  }

  /** The halt lifts on the first bar of a later date: that bar trades as if no stoploss had
      happened, from the flat position with the stoploss baseline reset to the cash; with a
      non-negative limit the stoploss cannot fire on it. */
  lemma HaltLiftsNextDate(cfg: Config, bars: seq<Bar>, i: nat, j: nat)
    requires PositivePrices(bars)
    requires Chronological(bars)
    requires cfg.killSwitch
    requires i < j < |bars|
    requires Ledger(cfg, bars)[i].stoploss
    requires bars[j - 1].date == bars[i].date && bars[j].date != bars[i].date
    ensures var c := Ledger(cfg, bars)[i].cash;
      Transit(cfg, bars, j) == Step(cfg, State(c, 0, false, c, None), bars[j], AtLastMinute(bars, j))
    ensures StoplossLimit(cfg) >= 0.0 ==> !Ledger(cfg, bars)[j].stoploss
  {
    var c := Ledger(cfg, bars)[i].cash;
    HaltedState(cfg, bars, i, j);
    RowAt(cfg, bars, j);
    var s := State(c, 0, true, c, Some(bars[i].date));
    StepHaltExpiry(cfg, s, bars[j], AtLastMinute(bars, j));
    assert Equity(c, 0, bars[j].close) == c;
  }
}
