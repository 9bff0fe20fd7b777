# Intraday RSI backtest — Dafny model

This project models the backtest engine of `app.py`, a Streamlit app that replays minute
bars of one ticker. The model covers four pieces:

- **RSI.** `app.py` computes a 14-bar simple-moving-average RSI over the closing prices.
- **Day segmentation.** It marks each day's last minute (the latest timestamp among the bars
  of that date).
- **Trading loop.** It walks the bars and keeps cash, shares, a stoploss flag, a stoploss
  baseline and a kill-switch halt date. On each bar it applies these rules in order:
  1. liquidate at the day's last minute;
  2. lift a halt recorded for an earlier date;
  3. mark the portfolio to market;
  4. run the stoploss test, which liquidates and ends the bar;
  5. buy when RSI < 30;
  6. sell when RSI > 70;
  7. write the row and carry the baseline forward;
  8. clear the flag when there is no kill switch.
- **Day summary.** It keeps the last ledger row of every date.

Modules:

- `Wrappers`: `Option`.
- `Bars`: the input bar and its ordering assumptions.
- `Indicator`: the RSI as functions over a price sequence, with lemmas.
- `Sessions`: `last_minutes` and the characterisations of "last bar of its day".
- `Engine`: one bar of the loop as a pure transition `Step`, assembled from the rule phases.
  The per-bar lemmas live here.
- `Simulation`:
  - the loop as a fold of `Step` (`RunPrefix`, `Ledger`);
  - the imperative loop `Backtest`, which writes an `array<Row>` in place through the
    per-bar methods `ProcessBar`, `OpenBar`, `StopBar`, `TradeBar` and `SettleBar`, each
    proved equal to its specification function;
  - lemmas about whole ledgers.
- `DailySummary`: the `groupby('date').tail(1)` table and its lemmas.

Prices and cash are exact `real`s and share counts are `int`. `trade_cash // price` is the
floor of the exact quotient. A null RSI (NaN) is `None`, for which every comparison is false.
When a window has gains and no losses, `rs` is +inf and the RSI is exactly 100.0, the
model's `Some(100.0)`. When it has neither, `rs` is NaN and so is the RSI, the model's `None`.

Two points of `app.py` shape the model:

- **Cooldown without the kill switch.** The stoploss branch ends with `continue`
  (app.py:134-140), which skips the reset at app.py:163-164. So the flag stays set through
  the *next* bar, and that bar cannot trade (`Simulation.CooldownLastsOneBar`).
- **RSI input series.** The RSI is computed over the unfiltered series (app.py:47-56), before
  the 09:30-16:00 filter (app.py:64). So the engine takes each bar's RSI as an input, and
  `Indicator` models the computation on its own.

## Model

| member | source | states |
|---|---|---|
| Indicator.Gain | app.py:48-49 | the gain at i is non-negative and at least the price change from i - 1 |
| Indicator.Loss | app.py:48-50 | the loss at i is non-negative and at least the price fall from i - 1 |
| Indicator.GainLossSplit | app.py:48-50 | each price change goes wholly to the gain or wholly to the loss (at most one is non-zero, gain - loss is the change), and position 0, whose difference is NaN, has neither |
| Indicator.SumGains | app.py:51 | a window sum of gains is non-negative (its value is fixed by MoveSplit with NetMove) |
| Indicator.SumLosses | app.py:52 | a window sum of losses is non-negative (its value is fixed by MoveSplit with NetMove) |
| Indicator.AvgGain | app.py:51 | the 14-bar mean gain is non-negative (its level is stated by AverageLevels) |
| Indicator.AvgLoss | app.py:52 | the 14-bar mean loss is non-negative (its level is stated by AverageLevels) |
| Indicator.RsiAt | app.py:53-56 | positions 0..13 are null, and every defined RSI lies in [0, 100] |
| Indicator.RsiZeroLoss | app.py:53-54 | with a zero average loss the RSI is 100 when the window had gains (rs = +inf) and null when it had none (rs = NaN) |
| Indicator.RsiDefinedIff | app.py:51-56 | the RSI is defined exactly from position 14 on where the window's average gain or average loss is positive |
| Indicator.Rsi | app.py:53-56 | the RSI column has one entry per close, nulls at positions 0..13, each entry equal to the RSI at that position and within [0, 100] |
| Indicator.NetMove | app.py:48-50 | gains minus losses over a window add up to the net price change across it |
| Indicator.MoveSplit | app.py:48-52 | over a window, gains plus losses equal the total distance the price travels (the sum of the absolute moves) |
| Indicator.AverageLevels | app.py:48-52 | the 14-bar mean gain is (travel + net move) / 28 and the mean loss (travel - net move) / 28 over the window ending at i |
| Indicator.RisingWindow | app.py:48-52 | a window with no price fall has zero losses, and its gains equal the net rise |
| Indicator.RsiOfRisingWindow | app.py:48-56 | a 14-bar window that never falls but rises ends at an RSI of exactly 100 |
| Indicator.RsiClosedForm | app.py:53-54 | with a positive average loss, RSI * (avg gain + avg loss) = 100 * avg gain, so RSI < 100 |
| Indicator.OversoldIff | app.py:53-54 | RSI is defined and below 30 exactly when 7 * avg gain < 3 * avg loss |
| Indicator.OverboughtIff | app.py:53-54 | RSI is defined and above 70 exactly when 3 * avg gain > 7 * avg loss |
| Indicator.RsiFollowsTrend | app.py:48-54 | a net rise over the 14-bar window gives an RSI above 50, and a net fall one below 50 |
| Sessions.LatestOn | app.py:90 | the result bounds every time on date d among the first n bars, and is attained by one of them (or is the seed) |
| Sessions.LastMinute | app.py:90 | the day's last minute bounds every timestamp of the bar's date, and a bar of that date has it |
| Sessions.LastMinutes | app.py:90 | the `last_minutes` column has one entry per bar, each the last minute of that bar's date |
| Sessions.DayEndCharacterised | app.py:90 | on chronological bars, "timestamp equals the day's max", "no later bar of the date" and "the next bar starts another date" coincide |
| Sessions.DaysPartition | app.py:90 | every bar between two bars of one date has that date and does not end the day |
| Engine.BuyQuantityBounds | app.py:143-145 | the buy quantity is the largest whole count whose cost stays within initial capital * trade fraction |
| Engine.Opening | app.py:105-114 | the forced close and the halt expiry keep the equity at the bar's price, and leave no shares exactly when they liquidate |
| Engine.Entry | app.py:142-150 | a buy keeps the equity, never drives non-negative cash negative, and never reduces the shares |
| Engine.Exit | app.py:152-155 | an RSI exit keeps the equity and leaves zero shares exactly when it fires |
| Engine.Step | app.py:99-164 | the row's value is the pre-bar position marked at the close; the row records the post-bar cash and shares, worth that value; the next baseline is that value |
| Engine.StepSolvent | app.py:142-155 | non-negative cash and shares stay non-negative |
| Engine.StepBuy | app.py:142-150 | a 'B' row happens exactly when it is not the last minute, the flag is clear, the drawdown from the baseline is within the limit, RSI < 30, the quantity is positive and the cash covers it; it moves quantity * price from cash into shares |
| Engine.StepSell | app.py:105-155 | an 'S' row happens exactly at a forced close, or on RSI > 70 with shares outside the stoploss and the last minute; the whole position becomes cash at the close |
| Engine.StepStoploss | app.py:116-140 | the stoploss flag is written exactly when it is not the last minute, the flag is clear and equity minus baseline is below minus the limit; it then leaves no shares, cash equal to the equity, the flag armed, the baseline equal to the cash, and the halt date under the kill switch |
| Engine.StepDayEnd | app.py:105-119 | on the day's last minute the row is flat, with no buy and no stoploss, and tagged 'S' exactly when shares were held |
| Engine.StepBlockedByStoploss | app.py:120-155 | while the flag is armed, no buy, no RSI exit and no new stoploss happen |
| Engine.StepFlagCarry | app.py:120-164 | without the kill switch, the next flag is set exactly when this bar fired the stoploss; with it, the flag persists or is newly set |
| Engine.StepHaltExpiry | app.py:110-116 | a halt from another date makes the bar behave as with the flag clear, no halt and the baseline at the equity; with a non-negative limit the stoploss cannot fire |
| Engine.StepConsistent | app.py:110-164 | each bar preserves: no short position; a halt date only under the kill switch and only while flat; under the kill switch the flag is set exactly while a halt is recorded |
| Engine.StepWhileHalted | app.py:110-164 | a bar entered flat with the flag armed, the baseline equal to the cash and no lapsing halt writes a quiet row with the same cash; it passes on the same cash, shares, baseline and halt, and the flag stays armed only under the kill switch |
| Engine.StepQuiet | app.py:142-159 | a row with no signal and no stoploss trades nothing: the next cash and shares equal the incoming ones, and the halt date changes only by lapsing on a new date |
| Engine.NullRsiNeverTrades | app.py:142-155 | a null RSI never buys and never triggers the RSI exit |
| Simulation.RunPrefix | app.py:92-166 | running the loop over n bars writes n rows |
| Simulation.Ledger | app.py:69-166 | the ledger has one row per bar |
| Simulation.OpenBar | app.py:105-114 | the imperative rules 1-2 compute `Opening` and whether the row is tagged 'S' by the forced close |
| Simulation.TradeBar | app.py:142-155 | the imperative rules 5-6 compute `Entry` then `Exit`, and report whether each fired |
| Simulation.StopBar | app.py:120-140 | the imperative stoploss branch produces `StopOut`'s state and row |
| Simulation.SettleBar | app.py:142-164 | the imperative rules 5-8 produce `Settle`'s state and row |
| Simulation.ProcessBar | app.py:99-164 | one imperative loop iteration from a preset row equals `Step` |
| Simulation.Backtest | app.py:69-166 | the in-place loop over a preset array produces exactly `Ledger` |
| Simulation.PrefixStable | app.py:92-166 | later bars never rewrite an earlier row |
| Simulation.RowAt | app.py:92-166 | row i is the row `Step` writes from the variables before bar i, and its result is the state before bar i + 1 |
| Simulation.StatesConsistent | app.py:75-164 | the variables before every bar satisfy the invariant of `StepConsistent`, and cash is non-negative when the capital is |
| Simulation.LedgerBalanced | app.py:129-159 | every row: portfolio_value = cash + shares * close; shares >= 0; cash >= 0 when the capital is |
| Simulation.RowLinks | app.py:116-161 | bar i starts from row i - 1's cash, shares and value, and row i is that position marked at bar i's close |
| Simulation.ValueChange | app.py:116-161 | row 0's value is the initial capital; each later value is the previous one plus the previous shares times the price move |
| Simulation.StoplossDrawdown | app.py:116-120 | a stoploss (with a non-negative limit) is never on the first bar, and row i - 1's position lost more than the limit at bar i's price |
| Simulation.StoplossNeedsDrop | app.py:116-124 | with a non-negative limit, a stoploss needs held shares and a falling price, with shares * fall greater than the limit |
| Simulation.FlatAtDayEnd | app.py:90-119 | on chronological bars the last bar of each date is flat, worth its cash, with no buy and no stoploss, and tagged 'S' exactly when shares were carried in |
| Simulation.CooldownFlag | app.py:120-164 | without the kill switch, the flag is armed entering bar i + 1 exactly when row i fired the stoploss |
| Simulation.StoplossState | app.py:120-140 | after a stoploss the next bar starts flat, with the raised cash as baseline, the flag armed, and the halt date under the kill switch |
| Simulation.QuietBar | app.py:110-164 | a bar entered flat with the flag armed, the baseline equal to the cash and no lapsing halt writes a quiet row with the same cash; the next state keeps cash, shares, baseline and halt, and the flag stays armed only under the kill switch |
| Simulation.CooldownLastsOneBar | app.py:134-164 | without the kill switch, the bar after a stoploss is quiet (same cash, no shares, no signal), and the one after it starts with the flag clear |
| Simulation.HaltedState | app.py:126-134 | under the kill switch, the variables stay frozen from a stoploss to the end of its date |
| Simulation.KillSwitchHaltsDay | app.py:120-155 | under the kill switch, every later bar of the stoploss's date writes a quiet row |
| Simulation.HaltLiftsNextDate | app.py:110-114 | the first bar of a later date trades as from a clean flat state with the baseline at the cash; with a non-negative limit it cannot fire the stoploss |
| DailySummary.DayEndIndices | app.py:173 | the kept positions are ascending, each is the last of its date, and every last-of-date position is kept |
| DailySummary.Summary | app.py:173 | the summary has one entry per kept position |
| DailySummary.LastOfDateExists | app.py:173 | every bar's date has a last bar, at or after it |
| DailySummary.OneRowPerDate | app.py:173 | every date of the bars appears in the summary, and none appears twice |
| DailySummary.DatesAscend | app.py:173 | on chronological bars the summary's dates strictly increase |
| DailySummary.SummaryEndsFlat | app.py:173 | on the engine's ledger over chronological bars, the k-th summary entry is the k-th kept row (the last of its date), which holds no shares and whose value is its cash |

## Left out

- Data loading (`load_data`, app.py:9-18) is file and HTTP I/O. The model starts from bars
  already in memory.
- Timestamp parsing, the US/Eastern conversion and the 09:30-16:00 filter (app.py:42-44,
  59-65) are library time-zone handling. A `Bar` carries its instant, a day number, the
  close and its RSI. `Chronological` states the ordering the code relies on.
- The link between the RSI column computed over the unfiltered series and the RSI each
  filtered bar carries is not modelled. The engine takes the RSI as a per-bar input.
- The Streamlit UI (sidebar inputs, spinner, progress bar and status text, `session_state`,
  metric display) and the matplotlib charts (app.py:205-290) are presentation only.
- The performance metrics (app.py:181-185) use a fractional power, a square root, a
  standard deviation and NaN propagation on floats. They have no exact contract worth
  stating over reals.
- `skip_trading_today` and `prev_date` are assigned but never read, so they are not modelled.
- Floating-point rounding of `//`, of the products and of the RSI division is not modelled.
  All arithmetic is exact.
- Engine.Step: it is defined for positive closes only. A zero close would make
  `trade_cash // price` a division by zero, and the code does not guard against it.
