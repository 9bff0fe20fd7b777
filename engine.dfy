/**
 * One iteration of the trading loop of app.py (lines 99-166) as a pure transition on the
 * loop's carried variables. The rules run in the source's order: forced end-of-day
 * liquidation, kill-halt expiry on a new date, equity mark, the stoploss test (which ends
 * the bar), RSI < 30 entry, RSI > 70 exit, ledger write, baseline carry-forward and the
 * per-bar stoploss reset.
 */
module Engine {

  import opened Wrappers
  import opened Bars

  /** `initial_capital`, `trade_fraction` and `stoploss_percent` (both already divided
      by 100) and the kill-switch checkbox. */
  datatype Config = Config(capital: real, tradeFraction: real, stoplossFraction: real, killSwitch: bool)

  /** The `signal` column: '' , 'B' or 'S'. */
  datatype Signal = NoSignal | Buy | Sell

  /** One ledger row: columns cash, shares, portfolio_value, signal and stoploss (0/1). */
  datatype Row = Row(cash: real, shares: int, value: real, signal: Signal, stoploss: bool)

  /** The loop's carried variables: current_cash, current_shares, stoploss_hit,
      prev_portfolio_value and kill_switch_triggered_date. */
  datatype State = State(cash: real, shares: int, stoplossHit: bool, prevValue: real, killDate: Option<int>)

  /** The state after a bar together with the ledger row written for it. */
  datatype Transition = Transition(next: State, row: Row)

  /** Mark-to-market value of a cash balance and a share count at a price. */
  function Equity(cash: real, shares: int, price: real): real
  {
    cash + shares as real * price
  }

  /** The variables before the first bar. */
  function Initial(cfg: Config): State
  {
    State(cfg.capital, 0, false, cfg.capital, None)
  }

  /** The values every ledger column is preset to before the loop. */
  function BlankRow(cfg: Config): Row
  {
    Row(cfg.capital, 0, cfg.capital, NoSignal, false)
  }

  /** `stoploss_limit`: the absolute drawdown that triggers the stoploss. */
  function StoplossLimit(cfg: Config): real
  {
    cfg.capital * cfg.stoplossFraction
  }

  /** Python's `//` on a non-negative divisor: the floor of the exact quotient. */
  function FloorDiv(a: real, p: real): int
    requires p > 0.0
  {
    (a / p).Floor
  }

  /** `trade_cash`: the fixed trade budget, a fraction of the initial capital (not of
      the current cash). */
  function TradeCash(cfg: Config): real
  {
    cfg.capital * cfg.tradeFraction
  }

  /** `trade_cash // price`: the whole number of shares the trade budget pays for. */
  function BuyQuantity(cfg: Config, price: real): int
    requires price > 0.0
  {
    FloorDiv(TradeCash(cfg), price)
  }

  /** The buy quantity is the largest whole number of shares whose cost stays within the
      trade budget. */
  lemma BuyQuantityBounds(cfg: Config, price: real)
    requires price > 0.0
    ensures var q := BuyQuantity(cfg, price);
      q as real * price <= TradeCash(cfg) < (q + 1) as real * price
  {
    FloorDivision(TradeCash(cfg), price);
  }

  /** Floor division by a positive amount: q * p <= a < (q + 1) * p for q = a // p. */
  lemma FloorDivision(a: real, p: real)
    requires p > 0.0
    ensures FloorDiv(a, p) as real * p <= a
    ensures a < (FloorDiv(a, p) + 1) as real * p
  {
    var x := a / p;
    var q := FloorDiv(a, p);
    assert x * p == a;
    MulMonotone(q as real, x, p);
    var r := (q + 1) as real;
    assert x < r;
    MulStrict(x, r, p);
    assert a < r * p;
  }

  lemma MulMonotone(x: real, y: real, p: real)
    requires x <= y && p > 0.0
    ensures x * p <= y * p
  {
  }

  lemma MulStrict(x: real, y: real, p: real)
    requires x < y && p > 0.0
    ensures x * p < y * p
  {
  }

  /** `rsi < 30`; a null RSI (NaN) compares false. */
  predicate Oversold(rsi: Option<real>)
  {
    rsi.Some? && rsi.value < 30.0
  }

  /** `rsi > 70`; a null RSI (NaN) compares false. */
  predicate Overbought(rsi: Option<real>)
  {
    rsi.Some? && rsi.value > 70.0
  }

  /** Rule 1 applies: the day's last minute with shares held. */
  predicate ForcedClose(s: State, isLast: bool)
  {
    isLast && s.shares > 0
  }

  /** Rule 2 applies: a kill halt is recorded for a date other than this bar's. */
  predicate HaltExpires(s: State, b: Bar)
  {
    s.killDate.Some? && b.date != s.killDate.value
  }

  /** The variables after rules 1 and 2, on which the trading rules are evaluated. */
  function Opening(s: State, b: Bar, isLast: bool): (o: State)
    ensures Equity(o.cash, o.shares, b.close) == Equity(s.cash, s.shares, b.close)
    ensures o.shares == if ForcedClose(s, isLast) then 0 else s.shares
  {
    var s1 := if ForcedClose(s, isLast) then s.(cash := Equity(s.cash, s.shares, b.close), shares := 0) else s;
    if HaltExpires(s1, b) then
      s1.(stoplossHit := false, prevValue := Equity(s1.cash, s1.shares, b.close), killDate := None)
    else s1
  }

  /** Rule 4: not the last minute, no active stoploss, and the equity fell below the
      baseline by more than the limit. */
  predicate StoplossFires(cfg: Config, o: State, b: Bar, isLast: bool)
  {
    !isLast && !o.stoplossHit && Equity(o.cash, o.shares, b.close) - o.prevValue < -StoplossLimit(cfg)
  }

  /** Rule 5: RSI < 30 outside the last minute and the stoploss, with a positive
      quantity that the current cash covers. */
  predicate Buys(cfg: Config, o: State, b: Bar, isLast: bool)
    requires b.close > 0.0
  {
    var q := BuyQuantity(cfg, b.close);
    !isLast && !o.stoplossHit && Oversold(b.rsi) && o.cash >= q as real * b.close && q > 0
  }

  /** Rule 5 applied to the opened state: the buy, if it is taken. */
  function Entry(cfg: Config, o: State, b: Bar, isLast: bool): (e: State)
    requires b.close > 0.0
    ensures Equity(e.cash, e.shares, b.close) == Equity(o.cash, o.shares, b.close)
    ensures o.cash >= 0.0 ==> e.cash >= 0.0
    ensures e.shares >= o.shares
  {
    var q := BuyQuantity(cfg, b.close);
    if Buys(cfg, o, b, isLast) then
      assert (o.shares + q) as real * b.close == o.shares as real * b.close + q as real * b.close;
      o.(cash := o.cash - q as real * b.close, shares := o.shares + q)
    else o
  }

  /** Rule 6: RSI > 70 outside the last minute and the stoploss, with shares held. */
  predicate Sells(e: State, b: Bar, isLast: bool)
  {
    !isLast && !e.stoplossHit && Overbought(b.rsi) && e.shares > 0
  }

  /** Rule 6 applied after the entry rule: the exit, if it is taken. */
  function Exit(e: State, b: Bar, isLast: bool): (x: State)
    ensures Equity(x.cash, x.shares, b.close) == Equity(e.cash, e.shares, b.close)
    ensures x.shares == if Sells(e, b, isLast) then 0 else e.shares
  {
    if Sells(e, b, isLast) then e.(cash := Equity(e.cash, e.shares, b.close), shares := 0) else e
  }

  /** Rule 4 fired: the position is liquidated at the close, the flag is armed, the baseline
      becomes the cash, the kill switch records the halt date, and the bar ends. */
  function StopOut(cfg: Config, o: State, b: Bar, tag: Signal): Transition
  {
    var cash := Equity(o.cash, o.shares, b.close);
    var halt := if cfg.killSwitch then Some(b.date) else o.killDate;
    Transition(State(cash, 0, true, cash, halt), Row(cash, 0, Equity(cash, 0, b.close), tag, true))
  }

  /** Rules 5-8: entry, exit, the ledger row, the baseline carry-forward and, without the
      kill switch, the stoploss reset. */
  function Settle(cfg: Config, o: State, b: Bar, isLast: bool, tag: Signal): Transition
    requires b.close > 0.0
  {
    var e := Entry(cfg, o, b, isLast);
    var x := Exit(e, b, isLast);
    var signal := if Sells(e, b, isLast) then Sell else if Buys(cfg, o, b, isLast) then Buy else tag;
    var value := Equity(x.cash, x.shares, b.close);
    Transition(x.(stoplossHit := if cfg.killSwitch then x.stoplossHit else false, prevValue := value),
               Row(x.cash, x.shares, value, signal, false))
  }

  /** One bar of the trading loop. */
  function Step(cfg: Config, s: State, b: Bar, isLast: bool): (t: Transition)
    requires b.close > 0.0
    // trades happen at the bar's price, so they never change the equity at that price
    ensures t.row.value == Equity(s.cash, s.shares, b.close)
    // the row records the post-bar position, and its value is that position marked at the close
    ensures t.row.cash == t.next.cash && t.row.shares == t.next.shares
    ensures t.row.value == Equity(t.row.cash, t.row.shares, b.close)
    // the next bar's stoploss baseline is the equity just recorded
    ensures t.next.prevValue == t.row.value
  {
    var tag := if ForcedClose(s, isLast) then Sell else NoSignal;
    var o := Opening(s, b, isLast);
    if StoplossFires(cfg, o, b, isLast) then StopOut(cfg, o, b, tag) else Settle(cfg, o, b, isLast, tag)
  }

  /** Cash and shares never go negative: a buy is taken only when the cash covers it, and
      every sell converts the whole position to cash. */
  lemma StepSolvent(cfg: Config, s: State, b: Bar, isLast: bool)
    requires b.close > 0.0
    requires s.cash >= 0.0 && s.shares >= 0
    ensures Step(cfg, s, b, isLast).next.cash >= 0.0
    ensures Step(cfg, s, b, isLast).next.shares >= 0
  {
  }

  /** A buy is recorded exactly when the stoploss does not fire and the entry rule holds;
      it moves exactly quantity * price from cash into shares. */
  lemma StepBuy(cfg: Config, s: State, b: Bar, isLast: bool)
    requires b.close > 0.0
    ensures var o, t, q := Opening(s, b, isLast), Step(cfg, s, b, isLast), BuyQuantity(cfg, b.close);
      t.row.signal == Buy <==>
        !isLast && !o.stoplossHit &&
        Equity(o.cash, o.shares, b.close) - o.prevValue >= -StoplossLimit(cfg) &&
        Oversold(b.rsi) && q > 0 && o.cash >= q as real * b.close
    ensures var t, q := Step(cfg, s, b, isLast), BuyQuantity(cfg, b.close);
      t.row.signal == Buy ==>
        !isLast && Oversold(b.rsi) && q > 0 && s.cash >= q as real * b.close &&
        t.next.shares == s.shares + q && t.next.cash == s.cash - q as real * b.close
  {
  }

  /** A sell is recorded exactly at a forced close, or on an RSI > 70 exit while holding
      shares outside the stoploss; either way the whole position is sold at the close. */
  lemma StepSell(cfg: Config, s: State, b: Bar, isLast: bool)
    requires b.close > 0.0
    ensures var o, t := Opening(s, b, isLast), Step(cfg, s, b, isLast);
      t.row.signal == Sell <==>
        ForcedClose(s, isLast) ||
        (!StoplossFires(cfg, o, b, isLast) && !isLast && !o.stoplossHit && Overbought(b.rsi) && s.shares > 0)
    ensures var t := Step(cfg, s, b, isLast);
      t.row.signal == Sell ==> t.next.shares == 0 && t.next.cash == Equity(s.cash, s.shares, b.close)
  {
  }

  /** The stoploss is recorded exactly when rule 4 fires; it then leaves the position flat,
      arms the cooldown, sets the baseline to the cash, and under the kill switch halts the day. */
  lemma StepStoploss(cfg: Config, s: State, b: Bar, isLast: bool)
    requires b.close > 0.0
    ensures var o, t := Opening(s, b, isLast), Step(cfg, s, b, isLast);
      t.row.stoploss <==>
        !isLast && !o.stoplossHit && Equity(o.cash, o.shares, b.close) - o.prevValue < -StoplossLimit(cfg)
    ensures var o, t := Opening(s, b, isLast), Step(cfg, s, b, isLast);
      t.row.stoploss ==>
        t.row.signal == NoSignal && t.next.shares == 0 && t.next.cash == Equity(s.cash, s.shares, b.close) &&
        t.next.stoplossHit && t.next.prevValue == t.next.cash &&
        t.next.killDate == (if cfg.killSwitch then Some(b.date) else o.killDate)
  {
  }

  /** On the day's last minute nothing is bought, the stoploss is not tested, and the row
      is flat; it is tagged as a sell exactly when shares were held. */
  lemma StepDayEnd(cfg: Config, s: State, b: Bar)
    requires b.close > 0.0
    requires s.shares >= 0
    ensures var t := Step(cfg, s, b, true);
      t.row.shares == 0 && t.next.shares == 0 && !t.row.stoploss && t.row.signal != Buy &&
      (t.row.signal == Sell <==> s.shares > 0)
  {
  }

  /** While the stoploss flag is set (after rule 2), no buy, no RSI exit and no new stoploss
      can happen; only the end-of-day forced close can sell. */
  lemma StepBlockedByStoploss(cfg: Config, s: State, b: Bar, isLast: bool)
    requires b.close > 0.0
    requires Opening(s, b, isLast).stoplossHit
    ensures var t := Step(cfg, s, b, isLast);
      t.row.signal != Buy && !t.row.stoploss && (t.row.signal == Sell ==> ForcedClose(s, isLast))
  {
  }

  /** Without the kill switch the flag survives a bar only when that bar fired the stoploss
      (the `continue` skips the reset); with it, the flag persists while the halt does. */
  lemma StepFlagCarry(cfg: Config, s: State, b: Bar, isLast: bool)
    requires b.close > 0.0
    ensures var t := Step(cfg, s, b, isLast);
      !cfg.killSwitch ==> (t.next.stoplossHit <==> t.row.stoploss)
    ensures var o, t := Opening(s, b, isLast), Step(cfg, s, b, isLast);
      cfg.killSwitch ==> (t.next.stoplossHit <==> o.stoplossHit || t.row.stoploss)
  {
  }

  /** A recorded halt on another date is lifted: the bar behaves exactly as if the flag were
      clear, no halt were recorded and the baseline were the current equity; so (with a
      non-negative limit) the stoploss cannot fire on it. */
  lemma StepHaltExpiry(cfg: Config, s: State, b: Bar, isLast: bool)
    requires b.close > 0.0
    requires HaltExpires(s, b)
    ensures Step(cfg, s, b, isLast) ==
      Step(cfg, s.(stoplossHit := false, prevValue := Equity(s.cash, s.shares, b.close), killDate := None), b, isLast)
    ensures StoplossLimit(cfg) >= 0.0 ==> !Step(cfg, s, b, isLast).row.stoploss
  {
  }

  /** What the carried variables always satisfy: no short position; a halt date is
      recorded only under the kill switch and only with the position flat; and under the
      kill switch the flag is armed exactly while a halt is recorded. */
  predicate Consistent(cfg: Config, s: State)
  {
    s.shares >= 0 &&
    (s.killDate.Some? ==> s.shares == 0) &&
    (if cfg.killSwitch then s.stoplossHit <==> s.killDate.Some? else s.killDate == None)
  }

  /** Every bar preserves the invariant of the carried variables. */
  lemma StepConsistent(cfg: Config, s: State, b: Bar, isLast: bool)
    requires b.close > 0.0
    requires Consistent(cfg, s)
    ensures Consistent(cfg, Step(cfg, s, b, isLast).next)
  {
  }

  /** A bar met with the flag armed, the position flat, the baseline equal to the cash and
      no halt lapsing is quiet: the row repeats the cash with no signal, and the only
      change to the variables is that the flag is cleared unless the kill switch is on. */
  lemma StepWhileHalted(cfg: Config, c: real, halt: Option<int>, b: Bar, isLast: bool)
    requires b.close > 0.0
    requires halt.Some? ==> halt.value == b.date
    ensures var t := Step(cfg, State(c, 0, true, c, halt), b, isLast);
      t.row == Row(c, 0, c, NoSignal, false) && t.next == State(c, 0, cfg.killSwitch, c, halt)
  {
  }

  /** A bar whose RSI is null (NaN, for which every comparison is false) triggers neither
      the entry nor the exit rule: it can only be sold by the end-of-day close. */
  lemma NullRsiNeverTrades(cfg: Config, s: State, b: Bar, isLast: bool)
    requires b.close > 0.0
    requires b.rsi == None
    ensures var t := Step(cfg, s, b, isLast);
      t.row.signal != Buy && (t.row.signal == Sell ==> ForcedClose(s, isLast))
  {
  }

  /** A bar that writes no signal and no stoploss trades nothing: cash and shares are
      carried through unchanged, and the halt date changes only by lapsing. */
  lemma StepQuiet(cfg: Config, s: State, b: Bar, isLast: bool)
    requires b.close > 0.0
    ensures var t := Step(cfg, s, b, isLast);
      t.row.signal == NoSignal && !t.row.stoploss ==>
        t.next.cash == s.cash && t.next.shares == s.shares &&
        t.next.killDate == (if HaltExpires(s, b) then None else s.killDate)
  {
  }
}
