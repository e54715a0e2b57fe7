# Alternating buy/sell algorithms and a weekly rebalancer, modelled in Dafny

This project models the self-contained logic of two parts of a zipline
checkout. The rest of both files hands work to the backtesting engine, and
that engine is not modelled.

* `zipline/optimize/algorithms.py`. `BuySellAlgorithm` and
  `BuySellAlgorithmNew` are test algorithms for parameter optimisation.
  On every frame they order `buy_or_sell * (amount - offset**2)` shares,
  then flip the sign, record the order and count the frame. The
  `TradingAlgorithm` base class keeps a registry of transforms
  (`add_transform`). Before a run it checks its configuration and wraps
  one `StatefulTransform` per registered tag (`_setup`). After the run it
  splits the tracker's messages into daily and cumulative ones
  (`_create_daily_stats`).
* `bench/bench.py`. A benchmark algorithm. `initialize` sets 19 target
  weights and two rebalance dates. `handle_data` opens a gate at most
  once every `rebalance_days = 7` days. `rebalance` then places one
  `order_target_percent` per configured security that has data in the
  current bar.

Files:

* `options.dfy` (module `Options`): `Option` and `Outcome`. An `Option` is
  also used for a Python attribute that may not exist yet.
* `buy_sell_trace.dfy` (module `BuySellTrace`): the closed form `Trace` of
  the order sizes, with lemmas about its elements, its pairs and its sum.
* `algorithms.dfy` (module `Algorithms`): these classes:
  * `BuySellAlgorithm`
  * `TradingAlgorithm`
  * `BuySellAlgorithmNew`

  It also holds `Registered`, `WrapTransforms` and the specification of
  the daily/cumulative split.
* `rebalance_schedule.dfy` (module `RebalanceSchedule`): the gate as a
  function `Step` of the two dates. `Rebalances` gives the rebalance times
  for a run of bars, and the lemmas are about those times.
* `bench.dfy` (module `Bench`): these parts:
  * the weight table and the dict it builds
  * the `IsRebalanceBatch` predicate, which says what one rebalance orders
  * class `Context`, holding `initialize`, `handle_data` and `rebalance`

Modelling choices:

* **Engine calls as ghost logs.** The engine's `order` callable and
  `order_target_percent` are modelled as appends to ghost logs
  (`orderLog`). A `BuySellAlgorithm` whose `order` is still `None` raises
  `TypeError` when called. The model shows this as
  `Fail(OrderNotCallable)`, with the state unchanged.
* **Empty `sids` in the New variant.** `BuySellAlgorithmNew` evaluates
  `self.sids[0]` before it calls `order`. So an empty `sids` raises
  `IndexError` (`Fail(SidsEmpty)`) whether or not a callable is installed.
* **No inheritance.** Dafny has no class inheritance without traits.
  `BuySellAlgorithmNew` therefore holds its `TradingAlgorithm` part as the
  object `base`, and `base` carries the inherited attributes `sids`,
  `source` and the transform registry.
* **Time and weights are integers.** Times are integer seconds and a day
  is 86400 s. Weights are whole hundredths (0.09 is 9). `amount` and
  `offset` are integers.
* **The misspelt attribute.** `initialize` sets `next_rebalance_Date`
  (capital D). Nothing reads it (field `nextRebalanceDateMisspelt`). The
  attribute `next_rebalance_date` does not exist until the first
  rebalance, which the model shows as `None`. The gate
  `rebalance_date == None or exchange_time >= next_rebalance_date`
  short-circuits, so the missing attribute is never read. In the model
  this is the well-formedness of `nextRebalanceDate.value` in
  `Context.HandleData` under `Context.Valid`.
* **Spacing holds in any order.** The gate compares each bar only with
  the stored next date. So successive rebalances are at least 7 days
  apart in call order even if bar times go backwards.
  `RebalanceSchedule.RebalancesSpaced` therefore does not need
  non-decreasing times.

## Model

| member | source | states |
|---|---|---|
| `BuySellTrace.MultiplierFlips` | zipline/optimize/algorithms.py:51-55 | the multiplier is always -1 or 1 and changes sign from one frame to the next |
| `BuySellTrace.TraceLength` | zipline/optimize/algorithms.py:57 | after n frames exactly n order sizes have been recorded |
| `BuySellTrace.TraceAt` | zipline/optimize/algorithms.py:51-57 | order i of a run is `(-1)^(i+1) * (amount - offset^2)`, so the first order sells |
| `BuySellTrace.TracePrefix` | zipline/optimize/algorithms.py:57 | a longer run extends a shorter one: recorded orders are never rewritten |
| `BuySellTrace.PairsCancel` | zipline/optimize/algorithms.py:51-57 | orders 2k and 2k+1 cancel |
| `BuySellTrace.TraceSum` | zipline/optimize/algorithms.py:51-57 | the orders sum to 0 after an even number of frames and to `-(amount - offset^2)` after an odd number |
| `Algorithms.BuySellAlgorithm.constructor` | zipline/optimize/algorithms.py:28-39 | a fresh algorithm keeps `sid`, `amount` and `offset`, has multiplier -1, no orders, both counters 0, `done` false, no order callable, no portfolio and no prices |
| `Algorithms.BuySellAlgorithm.SetOrder` | zipline/optimize/algorithms.py:44-45 | after the call an order callable is installed |
| `Algorithms.BuySellAlgorithm.SetPortfolio` | zipline/optimize/algorithms.py:47-48 | after the call the given portfolio is installed |
| `Algorithms.BuySellAlgorithm.HandleData` | zipline/optimize/algorithms.py:50-60 | with a callable installed, exactly one order is placed for `sid` of size `buy_or_sell * (amount - offset^2)`; that same size is appended to `orders`; the multiplier is negated; `frame_count` and `incr` each grow by 1; nothing else changes, and the invariant (counters equal to the number of orders, orders in closed form, multiplier in {-1, 1}) is kept. Without a callable it raises and changes nothing |
| `Algorithms.BuySellAlgorithm.GetSidFilter` | zipline/optimize/algorithms.py:62-63 | the filter is the one-element list holding `sid` |
| `Algorithms.Registered` | zipline/optimize/algorithms.py:146-152 | registering creates the registry if absent; the tag then maps to the new description; the keys are the old keys plus the tag; every other tag keeps its description |
| `Algorithms.TradingAlgorithm.AddTransform` | zipline/optimize/algorithms.py:146-152 | the registry becomes the `Registered` update of the old one, with class, args and kwargs |
| `Algorithms.WrapTransforms` | zipline/optimize/algorithms.py:76-86 | exactly one wrapper per registered tag, with no tag twice; each is built from that tag's class, args and kwargs and named after the tag |
| `Algorithms.TradingAlgorithm.constructor` | zipline/optimize/algorithms.py:68 | a bare algorithm has none of `source`, `sids`, `data`, the registry or the driver set |
| `Algorithms.TradingAlgorithm.Setup` | zipline/optimize/algorithms.py:69-95 | fails with "source not set." or "sids not set." when one is missing, or on missing or empty data, and then changes nothing; otherwise the driver gets `[source]`, an environment spanning the first to the last bar, and exactly one wrapper per registered tag (none without a registry) |
| `Algorithms.TradingAlgorithm.CreateDailyStats` | zipline/optimize/algorithms.py:97-110 | the daily rows are the `daily_perf` entries of the daily messages, in order; the discarded cumulative list is the other messages, in order; the table is indexed by each row's period close |
| `Algorithms.PartitionSizes` | zipline/optimize/algorithms.py:99-105 | the daily and cumulative lists together have as many entries as there were messages |
| `Algorithms.PartitionAppend` | zipline/optimize/algorithms.py:101-105 | the split preserves order: splitting a concatenation concatenates the two splits |
| `Algorithms.DailyPerfsMembers` | zipline/optimize/algorithms.py:102-103 | a figure is in the daily list exactly when some message carried it as `daily_perf` |
| `Algorithms.CumulativePerfsMembers` | zipline/optimize/algorithms.py:104-105 | a message is in the cumulative list exactly when it was received and has no `daily_perf` |
| `Algorithms.TradingAlgorithm.GetSidFilter` | zipline/optimize/algorithms.py:134-135 | the filter is `sids` when set; it fails when `sids` was never set |
| `Algorithms.BuySellAlgorithmNew.constructor` | zipline/optimize/algorithms.py:167-178 | as for `BuySellAlgorithm`, with the given `sids` stored in the base part and no source, data, registry or driver |
| `Algorithms.BuySellAlgorithmNew.SetOrder` | zipline/optimize/algorithms.py:131-132 | after the call an order callable is installed |
| `Algorithms.BuySellAlgorithmNew.SetPortfolio` | zipline/optimize/algorithms.py:128-129 | after the call the given portfolio is installed |
| `Algorithms.BuySellAlgorithmNew.HandleData` | zipline/optimize/algorithms.py:180-191 | as `BuySellAlgorithm.HandleData`, for `sids[0]`; an empty `sids` raises IndexError before the missing-callable TypeError, and a failed call changes nothing |
| `RebalanceSchedule.StepKeepsConsistent` | bench/bench.py:67-73 | the next date exists whenever a rebalance date does (so it is never read unset); a bar keeps the next date `rebalance_days` after the last rebalance; it rebalances at its own time whenever the gate is open, and inside the window it leaves the dates unchanged |
| `RebalanceSchedule.FirstBarRebalances` | bench/bench.py:58-74 | the first bar after `initialize` rebalances, whatever its time |
| `RebalanceSchedule.RebalancesAreBarTimes` | bench/bench.py:62-74 | rebalances happen only at the times of bars, at most one per bar |
| `RebalanceSchedule.RebalancesSpaced` | bench/bench.py:67-74 | successive rebalances are at least `rebalance_days` days apart, and none comes before the next date already scheduled |
| `Bench.ToMapKeys` | bench/bench.py:35-55 | the dict built from the literal has exactly the listed symbols as keys |
| `Bench.ToMapFaithful` | bench/bench.py:35-55 | with no symbol repeated, the dict has one key per entry, holds each listed weight, and totals what the list totals |
| `Bench.WeightTableShape` | bench/bench.py:35-55 | the literal lists nineteen distinct symbols, each with a positive weight |
| `Bench.WeightTableTotal` | bench/bench.py:35-55 | the listed weights add up to 84 hundredths |
| `Bench.ConfiguredWeights` | bench/bench.py:35-55 | `context.sids` has nineteen securities at their listed weights, every weight strictly positive, together 84 hundredths, which is at most 100% |
| `Bench.BatchSize` | bench/bench.py:77-80 | one rebalance orders exactly the configured securities present in the bar, as many orders as such securities |
| `Bench.Context.Initialize` | bench/bench.py:32-60 | `initialize` installs the weight table, leaves both dates unset and the misspelt attribute `None`, and sets the interval to 7 days |
| `Bench.Context.HandleData` | bench/bench.py:62-74 | the dates move on exactly as `Step` says; when the gate was open one full rebalance batch is appended to the order log, otherwise nothing is ordered; the date invariant is kept |
| `Bench.Context.Rebalance` | bench/bench.py:77-80 | the orders appended are one `order_target_percent` per configured security present in the data, each at its configured weight, no security twice; earlier orders are kept |

## Left out

- `TradingAlgorithm.run`: it builds a `DataFrameSource` and drains the external simulation engine; neither interface's behaviour is visible. `Setup` takes `source` and `data` as already set.
- `create_trading_environment`, `StatefulTransform`, `SimulatedTrading` and `FixedSlippage`: these are the external engine. The model records only the arguments passed to them.
- The pandas `DataFrame` and `np.datetime64` construction in `_create_daily_stats`: the table is the list of daily rows plus the list of their period closes. A daily figure without `period_close` (a `KeyError` in the source) is not modelled; `DailyPerf` always has one.
- Dict iteration order: `WrapTransforms` and `Context.Rebalance` pick the next key by choice, and their contracts speak only of which entries appear, never of their order.
- The unused `frame`/`data` argument of the buy/sell `handle_data` and the unused `exchange_time` argument of `rebalance`: they are dropped.
- `set_logger`, `set_slippage_override`, the no-op `initialize` methods, `logger.debug` and `log.info`: they have no effect on the modelled state.
- `load_data` (HDF file and network download) and the top-level script (running, profiling and printing risk metrics): these are I/O.
- `tz_convert('US/Eastern')`: it changes the displayed zone, not the instant, so the bar time is a plain integer.
- Floating point: `amount`, `offset` and the weights are integers (weights in hundredths), and `offset**2` is `offset * offset`.
- What the engine's `order` and `order_target_percent` calls do to the portfolio: they are only logged.
