# Avellaneda–Stoikov market-making strategy, modelled in Dafny

This project models the core of the Avellaneda–Stoikov futures market-making
strategy (`src/strategies/avellaneda_stoikov.rs`):

- **The rolling tick window `StrategyData`** (module `StrategyWindow`). It holds
  nine parallel series (timestamp, ask price/qty, bid price/qty, weighted mid
  `wap`, imbalance `imb`, `spread`, turnover `tv`) of fixed capacity, evicted
  oldest-first. The window is the class `StrategyData` with nine `seq` fields and
  a ghost `history` of every tick pushed. `Push` is imperative (`PopFront` on all
  nine series when full, then `PushBack` of the derived row). It is proved
  against the value-level step `Advance`. `Valid()` says the series are exactly
  the window of the last `min(n, capacity)` ticks of the history. Each row holds
  its tick's derived values, with its turnover measured against the front
  weighted mid at the moment it was appended. `TvMean` is `calculate_tv_mean`.
- **The per-tick risk and quoting decision** (module `Risk`). `Decide` is a pure
  state machine over `(in_stoploss, timer, unrealized_pnl)` with five outcomes:
  cooldown, stoploss, stop-profit, re-quote, and wait. The exchange calls
  (cancel all, market and limit orders) are an emitted `seq<Cmd>` in program
  order. `Run` folds `Decide` over a sequence of ready ticks.
- **The strategy object** (module `Strategy`). `AvellanedaStoikov` is a class
  whose fields are updated in place:
  - `OnTick` pushes the tick. When the intensity estimate is ready, it takes the
    new (A, K), sets `sigma` to the mean turnover and runs the decision
    (`Evaluate`).
  - `OnAccount` applies an account update.
  - The constructor derives `pair` and `tick_round`.

Real numbers stand in for `f64`. The preconditions exclude the inputs that
would produce an IEEE NaN or infinity:
- a tick whose quantities sum to 0 or whose weighted mid is 0;
- a non-flat position with entry price 0.

Millisecond timestamps are natural numbers. The source's whole-second
comparisons (`now_ms / 1000 - period / 1000`) use integer division, as the
source does. `stoploss_sleep` is a duration in milliseconds, but the code can
end the cooldown before that much time has passed. It truncates both the
trigger time (`transaction_time / 1000`) and the sleep (`stoploss_sleep / 1000`)
to whole seconds. The cooldown therefore ends up to
`trigger mod 1000 + stoploss_sleep mod 1000` ms early, which is at most 1998 ms.
The model follows the code:
- `CooldownNotEarly` states the bound that does hold: more than
  `1000·(stoploss_sleep/1000) − 1000` ms after the trigger.
- `CooldownEndsAfterSleep` states that the cooldown always ends once
  `stoploss_sleep` ms have passed.
- `CooldownCanEndEarly` gives concrete cases, down to 1 ms after a trigger
  with a 1999 ms sleep.

The balance loop of `on_account` compares each balance's asset with the pair
name (e.g. `BTCUSDT`), not with the quote asset. The model keeps that
comparison as written.

Inputs that come from code outside this model are parameters:
- the intensity estimator's readiness (`canGet`) and its (A, K) estimate;
- the quote offsets that `calculate_spread` computes from them;
- the price rounding `util::round_to`, a function parameter `round`;
- the clock, which is the tick's own timestamp or the `now` given to the constructor.

## Model

| member | source | states |
|---|---|---|
| StrategyWindow.StrategyData.WithCapacity | src/strategies/avellaneda_stoikov.rs:41-54 | A new window is empty, has the given capacity and an empty history, and is valid. |
| StrategyWindow.StrategyData.Push | src/strategies/avellaneda_stoikov.rs:56-86 | Pushing a tick appends it to the history. The series become exactly one `Advance` step of the old series, so validity is kept: the nine series stay in lock-step with length min(pushes, capacity), and every row is the right history tick. |
| StrategyWindow.StrategyData.PopFront | src/strategies/avellaneda_stoikov.rs:57-67 | All nine series lose their front element together (`Drop`); the history is untouched. |
| StrategyWindow.StrategyData.PushBack | src/strategies/avellaneda_stoikov.rs:69-85 | All nine series gain the derived row of the tick at the back (`Append`), with the turnover measured against the front weighted mid after the append. |
| StrategyWindow.Drop | src/strategies/avellaneda_stoikov.rs:57-67 | Removing the front row keeps the series in lock-step, shortens them by one, shifts every surviving weighted mid one place forward, and keeps every weighted mid nonzero. |
| StrategyWindow.Append | src/strategies/avellaneda_stoikov.rs:69-85 | Appending a well-formed tick keeps lock-step and nonzero weighted mids and grows the window by one row. |
| StrategyWindow.Advance | src/strategies/avellaneda_stoikov.rs:56-86 | One push leaves the size unchanged when the window is full (size >= capacity) and one larger otherwise, and keeps the series consistent. |
| StrategyWindow.AdvanceOldRow | src/strategies/avellaneda_stoikov.rs:57-67 | A row that survives a push still holds the same history tick and derived values: survivors keep their order. |
| StrategyWindow.AdvanceNewRow | src/strategies/avellaneda_stoikov.rs:69-85 | The row a push appends is the pushed tick, with its turnover measured against the oldest tick still resident. |
| StrategyWindow.AdvanceKeepsWindow | src/strategies/avellaneda_stoikov.rs:56-86 | If the series are the window over history `h`, one push makes them the window over `h + [t]`: the oldest row leaves exactly when the window is full. |
| StrategyWindow.ReplayIsWindow | src/strategies/avellaneda_stoikov.rs:56-86 | After any sequence of pushes into an empty window, all nine series have length min(n, capacity) and hold the last ticks in arrival order. |
| StrategyWindow.NewestRow | src/strategies/avellaneda_stoikov.rs:69-82 | The back of a non-empty window (what `wap.back()`, `bid_price.back()` and `ask_price.back()` read) is the last tick pushed. |
| StrategyWindow.WindowIsGood | src/strategies/avellaneda_stoikov.rs:84 | Every weighted mid in a window is nonzero, so `front()` is always a valid divisor for the next turnover. |
| StrategyWindow.SingleRowTurnover | src/strategies/avellaneda_stoikov.rs:84 | Whenever a push leaves a one-row window (capacity 1, or the first push at any capacity), the tick is measured against itself, so its turnover is `spread / wap`. |
| StrategyWindow.FourIdenticalTicks | src/strategies/avellaneda_stoikov.rs:56-86 | Four identical ticks into capacity 3 leave three rows of weighted mid 100.5, the newest with turnover 1/100.5. |
| StrategyWindow.WapWithinSpread | src/strategies/avellaneda_stoikov.rs:75-76 | With non-negative quantities and bid <= ask, the weighted mid lies between bid and ask; with equal quantities it is the plain mid. |
| StrategyWindow.ImbIsShare | src/strategies/avellaneda_stoikov.rs:77 | With non-negative quantities the imbalance lies in [0, 1]. |
| StrategyWindow.TurnoverFacts | src/strategies/avellaneda_stoikov.rs:84 | Measured against itself the first turnover term is 0; with a non-negative spread and positive mid the turnover is non-negative. |
| StrategyWindow.TvMean | src/strategies/avellaneda_stoikov.rs:465-473 | The mean is absent exactly for an empty series; otherwise mean times count equals the sum. |
| StrategyWindow.SumBounds | src/strategies/avellaneda_stoikov.rs:466 | A sum of samples in [lo, hi] lies between n·lo and n·hi. |
| StrategyWindow.TvMeanBounds | src/strategies/avellaneda_stoikov.rs:465-473 | The mean turnover lies between any lower and upper bound of the samples. |
| Risk.MarkToMarket | src/strategies/avellaneda_stoikov.rs:245-256 | Long: pnl = wap/entry − 1. Short: pnl = 1 − wap/entry. Flat: the old pnl is kept. |
| Risk.StoplossFlattens | src/strategies/avellaneda_stoikov.rs:265-297 | Below `-stoploss`: cancel all, then one market order (sell if long, else buy of abs(amount), 0 when flat) whose signed size exactly closes the position; pnl reset to 0, cooldown entered, timer set to the tick's second. |
| Risk.StopProfitCloses | src/strategies/avellaneda_stoikov.rs:298-341 | Above `stopprofit` once a period has passed: cancel all, then a limit sell at the last ask if long or a limit buy at the last bid if short (nothing if flat). The limit orders net to closing the position, no market order is sent, and the timer is unchanged. |
| Risk.RequotePlacesPair | src/strategies/avellaneda_stoikov.rs:342-403 | Otherwise, once a period has passed: cancel all, a limit buy of `order_qty` at the rounded `wap - bid offset`, then a limit sell of `order_qty` at the rounded `wap + ask offset`; the timer is stamped and the orders net to zero. |
| Risk.WaitsForPeriod | src/strategies/avellaneda_stoikov.rs:298-342 | With no stoploss and less than a period elapsed, nothing is sent and only pnl is refreshed. |
| Risk.CooldownStep | src/strategies/avellaneda_stoikov.rs:405-412 | In cooldown nothing is sent and pnl and timer are untouched; the flag clears exactly when `stoploss_sleep / 1000` whole seconds have passed. |
| Risk.CooldownQuiet | src/strategies/avellaneda_stoikov.rs:405-412 | Any number of ticks inside the cooldown send nothing and change nothing. |
| Risk.StoplossOncePerCrossing | src/strategies/avellaneda_stoikov.rs:265-297 | A crossing tick followed by ticks inside the cooldown sends exactly one cancel and one flattening order overall. |
| Risk.CooldownNotEarly | src/strategies/avellaneda_stoikov.rs:405-407 | The cooldown lasts more than `1000·(stoploss_sleep/1000) − 1000` ms after the trigger. |
| Risk.CooldownEndsAfterSleep | src/strategies/avellaneda_stoikov.rs:405-407 | Once `stoploss_sleep` ms have passed since the trigger, the cooldown ends. |
| Risk.CooldownCanEndEarly | src/strategies/avellaneda_stoikov.rs:405-407 | A stoploss at 1999 ms already ends at 2000 ms with a 1000 ms sleep, and also with a 1999 ms sleep (1998 ms early). |
| Risk.LongStoplossExample | src/strategies/avellaneda_stoikov.rs:245-297 | Long 5 at 100, wap 97, stoploss 2%: cancel all and market-sell 5; cooldown from second 1. |
| Strategy.TickRound | src/strategies/avellaneda_stoikov.rs:146-151 | Absent exactly when the tick-size text has no '.'; otherwise the number of characters between the first '.' and the next '.' or the end. |
| Strategy.TickRoundExamples | src/strategies/avellaneda_stoikov.rs:146-151 | "0.01" gives 2, "0.1" gives 1, "1" has no fraction. |
| Strategy.LastCash | src/strategies/avellaneda_stoikov.rs:422-426 | The cash is the wallet balance of the last balance whose asset equals the pair, or the old cash when none does. |
| Strategy.FindBoth | src/strategies/avellaneda_stoikov.rs:428-440 | Absent exactly when no position entry is for this pair in "BOTH" mode; otherwise the first such entry. |
| Strategy.AvellanedaStoikov.constructor | src/strategies/avellaneda_stoikov.rs:131-195 | Pair is base + quote, `tick_round` comes from the tick-size text, the window is empty with capacity `sigma_tick_period`, sigma 1.0, (A, K) = (0.4, 0.2) per side, a flat position for the pair, no cash, no cooldown, timer 0. |
| Strategy.AvellanedaStoikov.OnTick | src/strategies/avellaneda_stoikov.rs:228-417 | The tick is always pushed, and position and cash never change. When the estimate is not ready, nothing else changes and nothing is sent. When it is ready, (A, K) are the estimate plus epsilon, sigma is the mean turnover (never absent, as the window was just pushed), and the new risk state and commands are `Decide` of the old state on this tick. |
| Strategy.AvellanedaStoikov.TakeIntensity | src/strategies/avellaneda_stoikov.rs:235-240 | Each (A, K) becomes the estimator's value plus 1e-7; risk state, sigma, position and cash are unchanged. |
| Strategy.AvellanedaStoikov.Evaluate | src/strategies/avellaneda_stoikov.rs:245-412 | The imperative branch cascade updates `in_stoploss`, `timer` and `unrealized_pnl` and emits commands exactly as `Decide` specifies; position, cash, sigma and (A, K) are unchanged. |
| Strategy.AvellanedaStoikov.OnAccount | src/strategies/avellaneda_stoikov.rs:419-450 | Cash follows `LastCash`. Amount and entry price both come from the first "BOTH" entry for the pair, or both stay when there is none. The symbol and all risk, sigma and intensity state are unchanged. |

## Left out

- The quote-offset formula of `calculate_spread` (`ln`, `powf`, `sqrt` on `f64`): the offsets are a parameter of `OnTick`. `sigma_multiplier`, `gamma` and `q_fix` feed only that formula.
- `IntensityEstimator` and `AkSolverFactory` are not part of this model: `ie.on_tick` readiness and `ie.estimate` are the `canGet` and `ak` parameters. The estimator's own state update on every tick is not modelled.
- `util::round_to` is not part of this model: it is the uninterpreted parameter `round`.
- The exchange client (`cancel_all_open_orders`, `market_sell`, `market_buy`, `limit_sell`, `limit_buy`), their replies and errors, `get_timestamp`, logging, and the `async`/`await` machinery are I/O. The calls are only the emitted `Cmd` sequence. Order side, time-in-force and the pair argument are implicit.
- `run_forever`: the channel loop and event dispatch are concurrency and I/O.
- The detached `actix_rt::spawn` task of the re-quote branch: its three calls are emitted in program order. Their interleaving with later ticks is concurrency and is not modelled.
- `f64` formatting of the tick size: `TickRound` works on the decimal text it would produce. The panic on a text without '.' is the constructor's precondition.
- IEEE `f64` behaviour (rounding, NaN, infinity): reals are exact, and preconditions exclude zero quantity sums, zero weighted mids and non-flat positions priced at 0.
- Strategy.AvellanedaStoikov.OnTick: does not model the `u64` underflow of `now_ms / 1000 - period / 1000` (or `- stoploss_sleep / 1000`) when the tick time is below the period, nor the overflow of `start_time + estimate_window + 1`; time is an unbounded integer.
- StrategyWindow.StrategyData.Push: requires `capacity > 0`. At capacity 0, `capacity - 1` on `usize` underflows: a panic in debug builds, a window that never evicts in release builds.
- `total_profit`, `q_max`, `n_spreads`, `tick_size`, the API keys and the stored `Config` are never used by the modelled operations.
- `name()`, order-trade and account-config events are logging only.
