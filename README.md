# RSI calculator — a verified Dafny model

This project models the `RSICalculator` class of `rsi_calculator.js`. The
class computes the Relative Strength Index (RSI) of a price stream, one price
at a time, with Wilder's smoothing:

- The first accepted price is recorded in the price history and seeds the
  previous close.
- The next `period` price changes are buffered as gains and losses. When the
  buffer is full, the averages become the buffers' plain means.
- After that, every change updates both averages by Wilder's recurrence
  `avg' = (avg * (period - 1) + x) / period`.
- Once the calculator is initialized, every accepted price yields an RSI. It
  is stored in a history capped at 100 entries; the accepted prices go to a
  history capped at 200. Both histories drop their oldest entry first.

The project has four files:

- `wrappers.dfy`: the `Option` type, so that JavaScript's `null` becomes `None`.
- `rsi_model.dfy`: a value model of the class.
  - `Snapshot` holds every field of the class except the period.
  - `Inv` is the invariant every reachable state keeps.
  - `AddPrice` is one call of `addPrice`, with a case-by-case contract in
    `AddPriceBehaviour`.
  - `Run` is a stream of calls.
  - `ItemTick`, `Completed` and `RunItems` describe what `processHistoricalData`
    does with its items.
- `rsi_calculator.dfy`: the class itself. `Calculator` has the source's
  fields, and its methods update them in place with `modifies this`.
  - Every method that changes state is proved to leave `State()` equal to what
    the value model prescribes for `old(State())`.
  - `Valid()` is `Inv(period, State())`. It says:
    - the two buffers have equal lengths, and at most `period` entries when
      the period is at least 1 (with a smaller period they grow without bound);
    - the calculator is initialized exactly when both averages are set, and
      then the buffers hold `period` entries;
    - both averages are non-negative;
    - each history is within its cap.
- `rsi_properties.dfy`: what a stream of calls computes on a fresh calculator,
  compared against independent reference definitions:
  - the accepted prices (`AcceptedPrices`);
  - the moves between consecutive accepted prices (`Moves`);
  - Wilder's average of the gains and of the losses (`Smoothed`);
  - the RSI those averages give (`WilderRsi`).

  It also proves the worked example: with period 4, the prices 1.0, 1.1,
  1.05, 1.2 and 0.9 give an RSI of 125/3 at the fifth call.

How the model represents the source:

- Prices are `real`s, so the arithmetic is exact.
- A JavaScript argument is a `Value`: `Undefined`, a `Number`, or any other
  value, of which only its truthiness matters. Only a number greater than zero
  is accepted.
- A timestamp is an optional integer. The clock reading `Date.now()` becomes a
  parameter: `now` for one call of `addPrice`, and one reading per item
  (`nows[i]` for item `i`) for `processHistoricalData`.
- The constructor accepts any integer period, as the source does. The model
  proves that a period below 1 never completes the warm-up.
- In `processHistoricalData`, reading a field of a `null` element throws, which
  aborts the loop. The method models this by stopping at the first `null` item
  and returning `completed == false`; the state is then what the items before
  it left.

Facts about the code worth stating:

- The constructor does not check its period; a period below 1 never
  initializes the calculator (`NoRsiWithoutPositivePeriod`).
- The first RSI comes from the call that accepts the `period + 1`-th price
  (`WarmUpCount`).
- `addPrice` rejects bad input silently: it returns `null` and changes nothing.

## Model

| member | source | states |
|---|---|---|
| RsiModel.Truthy | rsi_calculator.js:109-116 | JavaScript truthiness as the `||` and `&&` tests use it: `undefined` is falsy, and a number is truthy exactly when it is not 0 |
| RsiModel.Accepts | rsi_calculator.js:25-27 | only a number greater than zero is accepted; anything that is not a number is rejected; an accepted price is also a truthy number |
| RsiModel.ResolveTime | rsi_calculator.js:31 | the stored time is the given timestamp when it is present and non-zero, and the clock reading otherwise, so it is non-zero whenever the clock reading is |
| RsiModel.Initial | rsi_calculator.js:5-15 | the state the constructor and `reset` set keeps the invariant for every period, has no current RSI and is not initialized |
| RsiModel.Delta | rsi_calculator.js:44-46 | the gain and the loss of a change are both non-negative, at most one of them is non-zero, and gain minus loss is the change itself |
| RsiModel.Sum | rsi_calculator.js:55-56 | the left-to-right sum of the buffered values is non-negative when they all are |
| RsiModel.MeanNonNegative | rsi_calculator.js:55-56 | the mean of non-negative buffered values, divided by a positive period, is non-negative |
| RsiModel.Wilder | rsi_calculator.js:59-64 | Wilder's update lies between the old average and the new observation, so it is non-negative when both are |
| RsiModel.Rsi | rsi_calculator.js:73-79 | the RSI lies in [0, 100]; it is 100 exactly when the average loss is 0; otherwise it is the gains' share 100·g/(g+l) of the total movement |
| RsiModel.RsiShare | rsi_calculator.js:76-78 | for a positive average loss, 100 − 100/(1 + g/l) equals 100·g/(g+l), which is non-negative and strictly below 100 |
| RsiModel.PushBounded | rsi_calculator.js:29-37 | pushing onto a history within its cap keeps it within the cap and non-empty, with the pushed entry last |
| RsiModel.PushBoundedKeepsNewest | rsi_calculator.js:82-93 | pushing then shifting once past the cap keeps exactly the newest `cap` entries of the history plus the new one |
| RsiModel.PushBoundedEntries | rsi_calculator.js:29-37 | every entry of a pushed history is either the pushed entry or an entry of the old history |
| RsiModel.CurrentRsi | rsi_calculator.js:131-134 | the current RSI is absent exactly when the RSI history is empty, and is otherwise the RSI of its newest entry |
| RsiModel.BufferedMove | rsi_calculator.js:50-51 | appending a move to the buffers keeps both buffers non-negative, with at most one non-zero entry per move |
| RsiModel.Initialize | rsi_calculator.js:53-57 | when the buffers reach `period` entries, setting the averages to their means gives a state that keeps the invariant and is initialized |
| RsiModel.Buffer | rsi_calculator.js:48-58 | the warm-up step keeps the invariant |
| RsiModel.Smooth | rsi_calculator.js:59-64 | Wilder's step on both averages keeps the invariant, including non-negative averages |
| RsiModel.UpdateAverages | rsi_calculator.js:48-64 | the averaging step keeps the invariant in both branches |
| RsiModel.RecordPrice | rsi_calculator.js:29-37 | recording an accepted price on the bounded history keeps the invariant: the cap holds and every recorded price is positive |
| RsiModel.Emit | rsi_calculator.js:68-95 | the end of `addPrice` keeps the invariant, and a returned RSI lies in [0, 100] and is the newest entry of the RSI history |
| RsiModel.AddPrice | rsi_calculator.js:24-96 | one call keeps the invariant, and a returned RSI lies in [0, 100] and is what `getCurrentRSI` then reports |
| RsiModel.AddPriceBehaviour | rsi_calculator.js:24-96 | each case of one call: a rejected input changes nothing and returns `null`; the first price only seeds the previous close and the price history; a warm-up move is appended to the buffers, and the `period`-th one sets the averages to the buffers' means; after the warm-up both averages follow Wilder's recurrence and the buffers stay as they are; an RSI is returned exactly when an accepted price finds the calculator initialized, and then it is 100 exactly when the average loss is 0 and is pushed onto the bounded RSI history |
| RsiModel.Run | rsi_calculator.js:24-96 | every state reached by a stream of calls keeps the invariant |
| RsiModel.RunAppend | rsi_calculator.js:24-96 | feeding one more price is one more call of `addPrice` on the state the earlier prices left |
| RsiModel.ItemTick | rsi_calculator.js:106-118 | a bare value makes a call exactly when it is a non-zero number; a record makes one exactly when its `close`, or its `price` when `close` is falsy, is a non-zero number, and that field is the price; a record's timestamp is `time`, or `timestamp` when `time` is absent or 0; a bare value's is one minute per remaining item before the item's clock reading; the call reads that same clock |
| RsiModel.Completed | rsi_calculator.js:105-119 | the loop gets through exactly the items before the first `null` one: none of those is `null`, and the item where it stops is |
| RsiModel.CompletedFrom | rsi_calculator.js:105-119 | from a point before which no item is `null`, the stopping point is the first `null` item at or after it, or the end |
| RsiModel.FirstNull | rsi_calculator.js:105-119 | any index that is the end or a `null` item, with no `null` item before it, is where the loop stops |
| RsiModel.RunItems | rsi_calculator.js:105-119 | every state reached by processing items, each with its own clock reading, keeps the invariant |
| RsiProperties.RunItemsIsRun | rsi_calculator.js:105-119 | processing the items one at a time gives the state that feeding their prices to `addPrice` in order gives |
| RsiProperties.HistoricalStep | rsi_calculator.js:116-118 | one more item adds one call of `addPrice` when it has a usable price, and none otherwise |
| RsiProperties.AcceptedPrices | rsi_calculator.js:25-27 | the accepted prices are at most as many as the calls |
| RsiProperties.Moves | rsi_calculator.js:44-46 | there is one move fewer than there are prices |
| RsiProperties.MovesNonNegative | rsi_calculator.js:44-46 | no gain and no loss among the moves of any price sequence is negative |
| RsiProperties.Smoothed | rsi_calculator.js:53-64 | Wilder's average of non-negative observations (the mean of the first `period`, then smoothed by each later one) is non-negative |
| RsiProperties.WilderRsi | rsi_calculator.js:73-79 | the reference RSI of a price sequence, when defined, lies in [0, 100] |
| RsiProperties.RunDescribed | rsi_calculator.js:24-70 | after any stream of calls on a fresh calculator: the previous close is the last accepted price; the calculator is initialized exactly when `period` moves exist; the buffers hold the first `min(period, moves)` gains and losses; the averages are Wilder's averages of all the moves |
| RsiProperties.RunHistory | rsi_calculator.js:29-37 | after any stream of calls on a fresh calculator, the price history is the newest 200 accepted prices with their timestamps |
| RsiProperties.StepDescribed | rsi_calculator.js:24-70 | one call keeps the description of the state by its accepted prices, with the price appended exactly when it is accepted |
| RsiProperties.StepHistory | rsi_calculator.js:29-37 | one call keeps the price history equal to the newest 200 recorded prices |
| RsiProperties.AcceptedStep | rsi_calculator.js:44-66 | an accepted price after the first extends the reference moves by exactly the move the calculator computes |
| RsiProperties.WarmUpStep | rsi_calculator.js:48-58 | a warm-up move is buffered, and the `period`-th one makes the averages the means of the first `period` moves |
| RsiProperties.SmoothStep | rsi_calculator.js:59-64 | after the warm-up, the buffers keep the first `period` moves and both averages become the reference Wilder averages of all the moves |
| RsiProperties.ReturnedIsWilderRsi | rsi_calculator.js:24-96 | on a fresh calculator, the call for the i-th input returns `null` when it rejects that input, and otherwise the reference RSI of all the prices accepted so far (`null` until `period` moves exist) |
| RsiProperties.StepRsi | rsi_calculator.js:68-80 | from a state that matches its accepted prices, a call returns the reference RSI of those prices plus the new one, or `null` for a rejected input |
| RsiProperties.StepReturns | rsi_calculator.js:68-95 | a call returns a value exactly when an accepted price finds a previous close and leaves the calculator initialized, and the value is the RSI of the new averages |
| RsiProperties.ReturnedAfterWarmUp | rsi_calculator.js:68-80 | once `period` moves exist, an accepted price returns the RSI of the reference averages, which are non-negative |
| RsiProperties.WarmUpCount | rsi_calculator.js:48-70 | on a fresh calculator, a call returns a value exactly when it accepts its price, the period is at least 1, and that price is at least the `period + 1`-th accepted one |
| RsiProperties.NoRsiWithoutPositivePeriod | rsi_calculator.js:53 | with a period below 1 the strict length test never succeeds: no call returns a value and the calculator is never initialized |
| RsiProperties.FirstAveragesAreMeans | rsi_calculator.js:53-57 | with exactly `period + 1` accepted prices, the calculator is initialized and the averages are the plain means of the `period` gains and losses |
| RsiProperties.FivePriceExample | rsi_calculator.js:24-96 | with period 4, the prices 1.0, 1.1, 1.05, 1.2 and 0.9 make the fifth call return 100 · 0.0625 / (0.0625 + 0.0875) = 125/3, whatever the timestamps |
| RsiCalculator.Calculator.constructor | rsi_calculator.js:5-15 | the new calculator keeps the given period, is in the initial state (nothing recorded, not initialized) and is valid |
| RsiCalculator.Calculator.AddPrice | rsi_calculator.js:24-96 | the call leaves exactly the state the value model's `AddPrice` prescribes and returns its value; a rejected input changes no field; a returned RSI lies in [0, 100] and equals `getCurrentRSI()` afterwards |
| RsiCalculator.Calculator.UpdateAndEmit | rsi_calculator.js:44-95 | the part after the first price updates the averages, records the price and emits the RSI as the model prescribes |
| RsiCalculator.Calculator.StoreRsi | rsi_calculator.js:73-93 | computing the RSI in place and pushing it onto the bounded history gives the model's result |
| RsiCalculator.Calculator.PushPrice | rsi_calculator.js:29-37 | `push` then one `shift` past 200 is the bounded push, and no other field changes |
| RsiCalculator.Calculator.PushRsi | rsi_calculator.js:82-93 | `push` then one `shift` past 100 is the bounded push, and no other field changes |
| RsiCalculator.Calculator.UpdateAveragesInPlace | rsi_calculator.js:48-64 | the averaging step in place leaves the fields as the model's averaging step prescribes, and leaves the price history alone |
| RsiCalculator.Calculator.BufferMove | rsi_calculator.js:48-58 | the warm-up branch in place is the model's warm-up step |
| RsiCalculator.Calculator.SmoothAverages | rsi_calculator.js:59-64 | the in-place recurrence on both averages is the model's Wilder step |
| RsiCalculator.Calculator.ProcessHistoricalData | rsi_calculator.js:102-125 | the loop, with one clock reading per item, reports completion exactly when no item is `null`, and leaves the state that processing the items before the first `null` one prescribes |
| RsiCalculator.Calculator.FeedItem | rsi_calculator.js:105-119 | one iteration of the loop advances the state by exactly one item |
| RsiCalculator.Calculator.GetCurrentRsi | rsi_calculator.js:131-134 | absent exactly when the RSI history is empty, in [0, 100] on a valid calculator, and the model's current RSI |
| RsiCalculator.Calculator.GetRsiColor | rsi_calculator.js:143-148 | grey exactly without an RSI; green exactly below the oversold threshold; red exactly when not below it and above the overbought one; yellow exactly in between, bounds included |
| RsiCalculator.Calculator.GetRsiStatus | rsi_calculator.js:157-162 | "Calculating..." exactly without an RSI; "Oversold", "Overbought" and "Neutral" for the same zones as the colours, both comparisons strict |
| RsiCalculator.Calculator.Reset | rsi_calculator.js:167-176 | every field returns to its constructor value and the calculator is valid; the period is a constant and is kept |
| RsiCalculator.Calculator.GetConfig | rsi_calculator.js:181-188 | the period, the flag, the RSI history's size and the current RSI; on a valid calculator the size is at most 100, and a non-empty history means it is initialized |
| RsiCalculator.Calculator.ExportData | rsi_calculator.js:193-199 | the configuration together with both histories, whose newest RSI is the configuration's current RSI |

## Left out

- Floating point: prices and averages are exact reals. IEEE-754 rounding, `NaN` (which passes the price check at line 25) and infinities are not modelled.
- Non-number arguments beyond their truthiness: a price is undefined, a number, or another value that is always rejected. Timestamps are absent or integers; a truthy non-numeric timestamp, which the source would store as it is, is not modelled.
- Clock: `Date.now()` is a parameter. `addPrice` may read the clock twice (lines 31 and 85); the model uses one reading, `now`, for both. `processHistoricalData` reads the clock afresh for every item; the model takes one reading per item, `nows[i]`, and uses it both for a bare value's synthetic timestamp (line 113) and for the `addPrice` call that item makes.
- Logging: the `console.log` calls of `processHistoricalData` (lines 103 and 121-124) are dropped.
- The period is an integer. A fractional period, which the strict test at line 53 never matches, is not modelled.
- Exceptions: a `null` item makes `processHistoricalData` throw. The model stops there and reports `completed == false` instead of raising.
- Sparse arrays: `forEach` skips the holes of a sparse array; an item sequence has none.
- Aliasing: `exportData` returns the live history arrays. The model returns their values, so a caller that changes the returned arrays is not modelled.
- Other files: request_listener.js, websocket_listener.js, ui.js, utils.js and data_processor.js are only I/O, DOM and library plumbing, and are not part of this model.
- RsiModel.UpdateAverages: its own contract states only the invariant it keeps; `AddPriceBehaviour` states what it computes, field by field.
- RsiModel.Buffer: its own contract states only the invariant it keeps; `AddPriceBehaviour` states the buffered move and the means set at `period` entries.
- RsiModel.Smooth: its own contract states only the invariant it keeps; `AddPriceBehaviour` states Wilder's recurrence on both averages.
- RsiModel.Initialize: its own contract states the invariant and the initialized flag; `AddPriceBehaviour` states that the averages are the buffers' means.
- RsiModel.RecordPrice: its own contract states only the invariant it keeps; `AddPriceBehaviour` states the bounded push and the new previous close.
