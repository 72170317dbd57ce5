# Trading pipeline core, modelled in Dafny

This project models the core of a small Python trading system:
- market ticks (`MarketDataPoint`) go through a rolling-window strategy (mean reversion or breakout);
- the trading engine publishes every signal to observers (a recording logger and a notional-threshold alerter);
- the engine turns each signal into an order command that an invoker executes on an order book, with undo and redo.

Next to that pipeline the project models:
- the instrument hierarchy, with its analytics decorators (volatility, beta, maximum drawdown);
- the portfolio composite of positions and nested groups, with its fluent builder and its construction from a nested dictionary;
- the reporting helpers that wire observers to a publisher and summarise a portfolio tree.

The model follows each Python file's own form.
- **Pure code is functions and lemmas.** This covers the return series, volatility, beta, the decorators' `get_metrics`, the portfolio values and the strategies' decisions.
- **Code that updates objects is classes.** The strategies, publisher, observers, order book, invoker, engine, portfolio groups and builder have `modifies` clauses. Their methods state their new state in terms of specification functions.
- **Loops are methods with invariants.** This covers maximum drawdown, `get_positions`, `notify`, `process_tick`, `run`, `build` and `from_dict`.

Python dictionaries are modelled as follows:
- signals and orders are `map<string, Value>`, where Python's value equality of dictionaries is map equality;
- the dictionary input of `from_dict` is a datatype whose missing keys are `None`.

Floats are exact reals, and a square root is kept as a symbolic `PStdDev(variance)`.

Files:
- `wrappers.dfy`: `Option`.
- `lists.dfy`: the Python list operations used (`remove`, `index`, `set(...)`).
- `data_loader.dfy`: `MarketDataPoint`.
- `signals.dfy`: signal dictionaries and the notional.
- `analytics.dfy`
- `strategy.dfy`
- `observer.dfy`
- `command.dfy`
- `engine.dfy`
- `models.dfy`
- `builder.dfy`
- `reporting.dfy`

## Model

| member | source | states |
|---|---|---|
| Analytics.ToReturnSeries | analytics.py:7-11 | fewer than two prices give no returns |
| Analytics.ReturnSeriesLength | analytics.py:7-11 | one return per consecutive pair, minus the pairs whose earlier price is zero |
| Analytics.ReturnSeriesAppend | analytics.py:7-11 | a new price extends the series by just the return of the new last pair, and by nothing when the previous price is zero |
| Analytics.ReturnSeriesNoZeros | analytics.py:7-11 | without zero prices, entry j is `p[j+1]/p[j] - 1` for every j |
| Analytics.ZeroPricesHaveNoReturns | analytics.py:7-11 | a series of zero prices has no returns |
| Analytics.FlatNonZeroPricesHaveZeroReturns | analytics.py:7-11 | a flat non-zero series has only zero returns |
| Analytics.FlatPricesHaveZeroReturns | analytics.py:7-11 | any flat series has only zero returns, or none |
| Analytics.CalculateVolatility | analytics.py:14-18 | the variance is non-negative, and it is 0.0 with fewer than two returns |
| Analytics.VolatilityZeroIffFlatReturns | analytics.py:14-18 | with at least two returns, the volatility is zero if and only if all returns are equal |
| Analytics.SquaredDeviationsNonNegative | analytics.py:36 | a sum of squared deviations is never negative |
| Analytics.SquaredDeviationsZero | analytics.py:36 | squared deviations vanish only when every element equals the centre |
| Analytics.MeanOfConstant | analytics.py:30-31 | the mean of a constant series is that constant |
| Analytics.BetaOfReturns | analytics.py:24-26 | an empty return series on either side gives beta 0.0 |
| Analytics.CalculateBeta | analytics.py:21-39 | beta is 0.0 when either series has fewer than two prices or no returns |
| Analytics.BetaIgnoresOlderAssetReturns | analytics.py:24-29 | asset returns older than the benchmark's `min(len)` window do not change beta |
| Analytics.BetaIgnoresOlderBenchmarkReturns | analytics.py:24-29 | benchmark returns older than the asset's window do not change beta |
| Analytics.BetaOfFlatBenchmarkReturns | analytics.py:36-38 | equal benchmark returns have zero variance, so beta is 0.0 |
| Analytics.BetaOfFlatBenchmark | analytics.py:21-39 | a flat benchmark price series gives beta 0.0 against any asset |
| Analytics.BetaOfIdenticalSeries | analytics.py:21-39 | a series against itself has beta exactly 1 unless its returns are flat |
| Analytics.PeakIsPrefixMaximum | analytics.py:47-50 | the running peak is the maximum of the prices seen so far, and one of them |
| Analytics.CalculateMaxDrawdown | analytics.py:42-55 | the loop's result equals `MaxDrawdown`; it is non-negative; it is at least every point's drop from its running peak and equal to one of them (or 0.0); it is 0.0 on an empty series |
| Analytics.NonDecreasingHasNoDrawdown | analytics.py:47-55 | on a non-decreasing series every drawdown is zero and the maximum drawdown is exactly 0.0 |
| Analytics.DrawdownExample | analytics.py:42-55 | on [100, 90, 95] every drop is at most 0.1, the drop at 90 is 0.1, and the maximum drawdown is exactly 0.1 |
| Strategies.LastN | patterns/strategy.py:28-29 | a bounded deque holds at most `maxlen` prices |
| Strategies.Push | patterns/strategy.py:29 | `append` on a bounded deque: the price goes last; the deque grows until full, then keeps its length |
| Strategies.PushKeepsLastN | patterns/strategy.py:28-29 | pushing onto the last n prices gives the last n prices of the longer list |
| Strategies.Max | patterns/strategy.py:68 | the maximum is an element and bounds all others |
| Strategies.Min | patterns/strategy.py:69 | the minimum is an element and is below all others |
| Strategies.BuildSignalFields | patterns/strategy.py:40-49 | a signal has exactly the seven keys, copied from the tick, with size 100, so its notional is 100 × price |
| Strategies.MeanReversionSignalsMeaning | patterns/strategy.py:30-38 | at most one signal: SELL when the window is full and the deviation reaches the threshold, otherwise BUY when it is at or below minus the threshold, otherwise none |
| Strategies.BreakoutSignalsMeaning | patterns/strategy.py:60-77 | at most one signal: BUY on a move of at least the threshold above the past maximum, otherwise SELL below the past minimum; none when warming up or without past prices |
| Strategies.SignalsHaveNotional | patterns/strategy.py:40-49 | every emitted signal has a computable notional of 100 × price |
| Strategies.HistoryAfterSnoc | patterns/strategy.py:28-29 | one tick updates only its own symbol's window |
| Strategies.SignalsAfterSnoc | patterns/strategy.py:27-38 | a replay's signals are those of the earlier ticks followed by the new tick's |
| Strategies.WindowIsLastPrices | patterns/strategy.py:28-29 | each symbol's window is exactly the last `lookback_window` prices of that symbol, newest last |
| Strategies.WindowExistsIffSeen | patterns/strategy.py:28 | `setdefault` creates a symbol's window exactly when one of its ticks has arrived |
| Strategies.OtherWindowsUnchanged | patterns/strategy.py:28-29 | a tick never changes another symbol's window |
| Strategies.NoSignalDuringWarmUp | patterns/strategy.py:30-31 | no signal while the window is not yet full |
| Strategies.MoveAbove | patterns/strategy.py:33-34 | a relative move of at least a positive threshold above a positive level lies above it |
| Strategies.MoveBelow | patterns/strategy.py:36 | a move of at most minus the threshold lies below the level |
| Strategies.MeanReversionDirection | patterns/strategy.py:32-37 | with a positive mean, SELL only above the mean and BUY only below it |
| Strategies.BreakoutDirection | patterns/strategy.py:68-76 | with positive past prices, BUY only above every past price and SELL only below every past price |
| Strategies.Strategy.MeanReversionStrategy | patterns/strategy.py:23-25 | a mean-reversion strategy with the given parameters and no history |
| Strategies.Strategy.BreakoutStrategy | patterns/strategy.py:53-55 | a breakout strategy with the given parameters and no history |
| Strategies.Strategy.GenerateSignals | patterns/strategy.py:27-38 | pushes the price onto the symbol's window; returns `SignalsFor` on the old history; the strategy's signals so far are the replay of all its ticks |
| Strategies.MeanReversionDecision | patterns/strategy.py:30-38 | at most one signal; a signal exactly when the window is full and the deviation from the window mean reaches the threshold either way; it is SELL when the deviation is at least the threshold and BUY otherwise, carrying the deviation |
| Strategies.BreakoutDecision | patterns/strategy.py:63-77 | at most one signal; a signal exactly when the window is full, holds a past price and the price moves at least the threshold above the past maximum or below the past minimum; it is BUY when the upward move qualifies and SELL otherwise, carrying that move |
| Strategies.ReplayOfFour | patterns/strategy.py:27-38 | in a four-tick replay where the first three ticks decide nothing, the signals are those of the last tick |
| Strategies.MeanReversionExample | tests/test_patterns.py:79-87 | prices 100, 100, 100, 120 with window 3 and threshold 0.05 give exactly one SELL, with deviation 0.125 |
| Strategies.BreakoutExample | tests/test_patterns.py:88-95 | prices 100, 101, 102, 110 give exactly one BUY, with breakout 8/102 |
| Observers.LoggerObserver.constructor | patterns/observer.py:32-34 | no records |
| Observers.LoggerObserver.Update | patterns/observer.py:36-38 | appends the signal to the records |
| Observers.AlertObserver.constructor | patterns/observer.py:42-44 | keeps the threshold; no alerts |
| Observers.AlertObserver.Update | patterns/observer.py:46-53 | fails exactly when the notional cannot be computed; otherwise appends `AlertFor` |
| Observers.AlertForFields | patterns/observer.py:46-53 | at most one alert, exactly when the notional reaches the threshold; the alert is the signal plus `notional` |
| Observers.AlertExample | tests/test_patterns.py:47-57 | size 10 at price 200 against threshold 1000 gives one alert with notional 2000 |
| Observers.AlertsForConcat | patterns/observer.py:46-53 | the alerts for two runs of signals are the alerts of each, in order |
| Observers.Reach | patterns/observer.py:26-28 | how far a notification pass gets: to the first alerter that fails, or to the end |
| Observers.DistinctTargets | patterns/observer.py:18-20 | distinct attached observers never share an object |
| Observers.Deliver | patterns/observer.py:28 | one `update`: a logger records the signal; an alerter records `AlertFor` |
| Observers.Extend | patterns/observer.py:26-28 | each observer's log after a run of signals is its old log plus what it receives |
| Observers.ExtendStep | patterns/observer.py:26-28 | two runs of notifications compose into one |
| Observers.SignalPublisher.constructor | patterns/observer.py:15-16 | no observers |
| Observers.SignalPublisher.Attach | patterns/observer.py:18-20 | appends the observer unless it is already attached; the list stays duplicate-free |
| Observers.SignalPublisher.Detach | patterns/observer.py:22-24 | removes the first copy of the observer when attached, keeps the others in order, and it is no longer attached |
| Observers.SignalPublisher.Notify | patterns/observer.py:26-28 | each observer attached at call time gets the signal once, in attachment order, up to the first failing alerter |
| Commands.OrderBook.constructor | patterns/command.py:20-21 | no executed orders |
| Commands.OrderBook.Execute | patterns/command.py:23-24 | appends the order |
| Commands.OrderBook.Reverse | patterns/command.py:26-28 | removes the first equal order, if any |
| Commands.OrderBook.ExecutedOrders | patterns/command.py:30-32 | returns the executed orders |
| Lists.RemoveFirstMultiset | patterns/command.py:27-28 | `remove` takes away exactly one copy of the order |
| Lists.RemoveFirstAt | patterns/command.py:27-28 | `remove` cuts out the first matching position and keeps the rest in order |
| Lists.RemoveFirstOfFreshAppend | patterns/command.py:23-28 | removing an order just appended, with no earlier copy, gives back the list |
| Commands.UndoOrderIsSwappedExecuteOrder | patterns/command.py:35-56 | the undo-order command's execute and undo are the execute-order command's undo and execute |
| Commands.ExecuteThenUndoRestores | patterns/command.py:40-44 | executing a new order and undoing it restores the book |
| Commands.ExecuteUndoRedo | patterns/command.py:40-44 | execute, undo and re-execute give the same multiset of orders, and the same list when the order was new |
| Commands.ExecuteUndoRedoMovesDuplicate | patterns/command.py:40-44 | with an earlier copy present, that round trip removes the earlier copy and leaves both copies at the end |
| Commands.UndoOrderRoundTrip | patterns/command.py:52-56 | reversing an order present in the book and undoing the reversal keeps the book's contents; for an absent order the reversal does nothing and the undo appends it |
| Commands.RunExecute | patterns/command.py:40-41 | `execute` applies `ExecuteEffect` to its book |
| Commands.RunUndo | patterns/command.py:43-44 | `undo` applies `UndoEffect` to its book |
| Commands.CommandInvoker.constructor | patterns/command.py:60-62 | empty history and redo stack |
| Commands.CommandInvoker.Execute | patterns/command.py:64-67 | runs the command, pushes it on the history and clears the redo stack |
| Commands.CommandInvoker.Undo | patterns/command.py:69-75 | None and no change on an empty history; otherwise pops, undoes and pushes on the redo stack, and no command is lost |
| Commands.CommandInvoker.Redo | patterns/command.py:77-83 | None and no change on an empty redo stack; otherwise pops, re-executes and pushes back on the history |
| Commands.ExecuteUndoRedoScenario | patterns/command.py:64-83 | execute, undo and redo leave the book with the order once more, and exactly as after the execute when it was new |
| Commands.ReversalUndoRedoScenario | tests/test_patterns.py:59-76 | on a fresh book and invoker, executing an order, executing its reversal, undoing twice and redoing once leaves the book holding exactly the order, nothing, the order, nothing and the order after the five steps, so the order is present exactly after the odd-numbered steps |
| Engine.OrderCommands | engine.py:30-31 | one execute-order command per signal, in order, on the engine's book |
| Engine.OrderCommandsConcat | engine.py:28-31 | order commands for two runs of signals concatenate |
| Engine.TradingEngine.constructor | engine.py:14-24 | keeps the strategy and publisher, and the given invoker and book, and creates empty ones when not given |
| Engine.TradingEngine.Dispatch | engine.py:29-31 | notifies the observers, then executes one order command: the book gains the signal and the history gains the command |
| Engine.TradingEngine.DispatchAll | engine.py:28-31 | the book gains the signals in order, the history gains one command each, and every observer receives them all |
| Engine.TradingEngine.ProcessTick | engine.py:26-31 | feeds the tick to the strategy and dispatches exactly the signals the strategy decides |
| Engine.TradingEngine.Advance | engine.py:34-35 | one turn of `run` keeps the relation between everything fed and everything emitted |
| Engine.TradingEngine.Run | engine.py:33-35 | the strategy has seen the ticks in order; the emitted signals are the replay's signals; the book, history, redo stack and observer logs follow from them |
| Engine.TradingEngine.SwitchStrategy | engine.py:37-38 | replaces the strategy only |
| Models.Decorate | models.py:53-55 | a decorator copies the wrapped instrument's symbol, price and sector |
| Models.Core | models.py:50-61 | the bottom of a decorator chain is a concrete instrument |
| Models.CopiesAgreeWithCore | models.py:53-55 | a chain's copies agree with its concrete instrument |
| Models.ForwardingReachesCore | models.py:60-61 | forwarded attributes (issuer, maturity) are those of the concrete instrument |
| Models.BaseMetrics | models.py:16-18 | a concrete instrument's metrics are exactly `{"price": price}` |
| Models.DecoratorMetrics | models.py:57-58 | the plain decorator passes metrics through; each concrete decorator adds its key with its own calculation and keeps the others |
| Models.MetricKeys | models.py:57-103 | the keys are "price" plus each decorator's key |
| Models.PriceMetricKept | models.py:16-18 | the price metric is always the concrete instrument's price |
| Models.StackedDecorators | tests/test_patterns.py:27-37 | volatility, then beta, then drawdown give exactly the four keys, with non-negative volatility |
| Models.Positions | models.py:127-128 | only positions come out of `get_positions` |
| Models.ValueIsSumOfPositions | models.py:124-149 | a tree is worth the sum of the values of its positions |
| Models.ValueOfConcat | models.py:142-143 | the value of two lists of components is the sum of their values |
| Models.PortfolioGroup.constructor | models.py:135-137 | named, no owner, no components |
| Models.PortfolioGroup.Portfolio | models.py:157-159 | named, with the owner, no components |
| Models.PortfolioGroup.AsComponent | models.py:151-153 | `components` gives the children in order as values |
| Models.PortfolioGroup.Add | models.py:139-140 | appends the component |
| Models.PortfolioGroup.GetValue | models.py:142-143 | the value is the sum of the children's values, which is also the sum of the values of its positions |
| Models.PortfolioGroup.GetPositions | models.py:145-149 | the loop collects exactly `Positions` of the group, the children's positions in add order |
| Builder.PortfolioBuilder.constructor | patterns/builder.py:11-15 | named, no owner, no entries |
| Builder.PortfolioBuilder.SetOwner | patterns/builder.py:17-19 | sets the owner and returns the same builder |
| Builder.PortfolioBuilder.AddPosition | patterns/builder.py:21-23 | appends the entry and returns the same builder |
| Builder.PortfolioBuilder.AddSubportfolio | patterns/builder.py:25-27 | appends the named sub-builder and returns the same builder |
| Builder.PortfolioBuilder.Build | patterns/builder.py:29-39 | a new portfolio with the builder's name and owner whose children are `Children(State())` |
| Builder.BuildDraft | patterns/builder.py:29-39 | builds positions in order, then one group per sub-builder |
| Builder.BuildSubGroup | patterns/builder.py:33-38 | a sub-group named as added, with no owner, holding the sub-portfolio's children |
| Builder.ChildrenShape | patterns/builder.py:29-39 | the positions come first, then the groups, each named by its `add_subportfolio` name, with the sub's owner dropped |
| Builder.BuiltPositions | patterns/builder.py:29-39 | the built tree's positions are the builder's and then each sub-builder's, in order |
| Builder.PortfolioBuilder.FromDict | patterns/builder.py:41-61 | None exactly when a position lacks its symbol; otherwise a fresh portfolio named by `name` or "Portfolio", owned by a non-empty `owner`, with children `Children(DraftOf(data))` |
| Builder.PortfolioBuilder.AddSubPortfolio | patterns/builder.py:52-59 | one sub-portfolio entry adds a sub-builder named by `name` or "SubPortfolio" holding its positions |
| Builder.PortfolioBuilder.AddPositions | patterns/builder.py:46-51 | fails exactly when an entry lacks a symbol; otherwise appends the entries with the defaults |
| Builder.Entries | patterns/builder.py:46-51 | each entry is the symbol, with quantity and price defaulting to 0.0 |
| Builder.OwnerOf | patterns/builder.py:44-45 | the owner is set if and only if the dictionary's owner is present and non-empty, and then it is that owner |
| Builder.FromDictShape | patterns/builder.py:41-61 | the positions with their defaults, then one group per sub-portfolio, named by `name` or "SubPortfolio" and holding only its positions |
| Builder.NestedDataIgnored | patterns/builder.py:52-60 | the owners and nested sub-portfolios of sub-portfolios make no difference |
| Reporting.AlertCount | patterns/observer.py:46-53 | an alerter that received a run of signals holds one alert per signal reaching the threshold, so at most one per signal |
| Reporting.SignalReporter.constructor | reporting.py:13-17 | attaches a fresh logger and then a fresh alerter with the threshold |
| Reporting.SignalReporter.SummaryAfter | reporting.py:19-23 | after the publisher delivers a run of signals, the summary counts every signal and the signals reaching the threshold, so alerts never exceed signals |
| Reporting.SnapshotOf | reporting.py:26-34 | the number of positions; the total value, which equals the sum of the positions' values; and the distinct symbols, at most the positions and at least one when there is a position |
| Reporting.DistinctSymbols | reporting.py:33 | the symbols count equals the positions count if and only if no symbol repeats |
| Reporting.PositionSnapshot | reporting.py:26-34 | a lone position is one position of one symbol worth quantity × price |
| Reporting.PortfolioSnapshot | reporting.py:26-34 | the snapshot of a group, computed with `get_value` and `get_positions`, equals `SnapshotOf` and changes nothing |
| Lists.ElementCount | reporting.py:33 | a set of symbols has at most as many as the list, and exactly as many if and only if none repeats |

## Left out

- Logging: the logger observer's `logger.info` call and the logging of engine activity are not modelled; only the records are.
- Volatility's square root is not computed: `pstdev` is the symbolic `PStdDev(variance)`, and only the variance is reasoned about.
- Floats are exact reals. Rounding, overflow and Python's int/float distinction are not modelled. `float(...)` conversions are the identity on numbers.
- Timestamps are opaque values. `datetime.utcnow()` and timestamp arithmetic are not modelled.
- `main.py` is not part of this model.
- The CSV and JSON loaders of `data_loader.py` are not part of this model; only `MarketDataPoint` is.
- The configuration singleton and the instrument factory are not part of this model.
- `Strategies.Strategy.GenerateSignals`: requires a positive lookback window for mean reversion. With window 0 the source divides by zero on an empty deque, and that crash is not modelled.
- `Strategies.Strategy`: the lookback window is a `nat`. The source accepts a negative `lookback_window` when the strategy is built (patterns/strategy.py:23-25, 53-55), and the `deque(maxlen=...)` of the first tick then raises ValueError (patterns/strategy.py:28, 58). That error path is not modelled.
- `Engine.TradingEngine.Dispatch` requires a computable notional. This holds for every signal the strategies emit (`Strategies.SignalsHaveNotional`). The TypeError an alerter raises on another signal is modelled in `Observers.SignalPublisher.Notify` as `ok == false`.
- Exceptions are result values. A failing `update` is `ok == false`, and a missing position symbol in `from_dict` (KeyError) is `None`.
- Observers form a closed set, the logger and the alerter (`datatype Observer`). Other `Observer` subclasses are not modelled.
- `Builder.PortfolioBuilder.AddSubportfolio` keeps the sub-builder's state as it is when added. Later changes to that sub-builder, which the source would see at `build` time, are not reflected. A sub-builder that contains itself (a cycle, on which the source recurses forever) cannot be expressed.
- `Models.PortfolioGroup.Add` holds a child as a value. Two parents sharing one mutable child object, and later changes to a child already added, are not modelled. Because of that, the copy the `components` property makes is implicit.
- `Commands.OrderBook.ExecutedOrders` returns the orders as a sequence value. That a caller cannot change the book through the returned list, which the source gets by copying, holds by construction and is not stated separately.
- The dictionary input of `from_dict`: a key present with value `None` is not distinguished from a missing key. Values of the wrong type are not modelled.
- `__repr__` methods, and `__getattr__` beyond the forwarded `issuer` and `maturity`, are not modelled.

Two behaviours of the code are worth stating because they are easy to misread:
- Mean reversion averages the window after the new price is pushed (patterns/strategy.py:29-32). For prices 100, 100, 100, 120 with window 3 the average is taken over 100, 100, 120, so the deviation is 0.125 (`Strategies.MeanReversionExample`).
- Each concrete decorator assigns its key in the metrics dictionary (models.py:64-103), so a repeated decorator overwrites the earlier value (`Models.DecoratorMetrics`).
