/** The trading engine: feeds each market tick to the current strategy, publishes every
    signal it returns to the observers and executes it as an order through the invoker. */
module Engine {
  import opened Wrappers
  import opened DataLoader
  import opened Signals
  import opened Strategies
  import opened Observers
  import opened Commands
  import opened Lists

  /** The order commands the engine creates, one per signal and in order, all on `book`. */
  function OrderCommands(book: OrderBook, signals: seq<Signal>): (commands: seq<Command>)
    ensures |commands| == |signals|
    ensures forall i :: 0 <= i < |signals| ==> commands[i] == ExecuteOrderCommand(book, signals[i])
  {
    if signals == [] then []
    else OrderCommands(book, signals[..|signals| - 1]) + [ExecuteOrderCommand(book, signals[|signals| - 1])]
  }

  /** Order commands for two runs of signals, one after the other, are the commands for the
      joined run. */
  lemma OrderCommandsConcat(book: OrderBook, a: seq<Signal>, b: seq<Signal>)
    ensures OrderCommands(book, a + b) == OrderCommands(book, a) + OrderCommands(book, b)
  {
  }

  /** Two stretches of order commands appended one after the other. */
  lemma HistoryStep(book: OrderBook, h0: seq<Command>, h1: seq<Command>, h2: seq<Command>, a: seq<Signal>, b: seq<Signal>)
    requires h1 == h0 + OrderCommands(book, a)
    requires h2 == h1 + OrderCommands(book, b)
    ensures h2 == h0 + OrderCommands(book, a + b)
  {
    OrderCommandsConcat(book, a, b);
    AppendAssoc(h0, OrderCommands(book, a), OrderCommands(book, b));
  }

  /** The engine's other objects are never among the observer objects a notification may change. */
  lemma Untouched(x: object, publisher: SignalPublisher)
    requires publisher.Valid()
    requires x is TradingEngine || x is Strategy || x is SignalPublisher || x is CommandInvoker || x is OrderBook
    ensures x !in publisher.Repr
  {
  }

  /** What `run` changes: the ticks the strategy has seen, the executed orders, the invoker's
      two stacks and every observer's log. */
  datatype Snapshot = Snapshot(ticks: seq<MarketDataPoint>, book: seq<Signal>, history: seq<Command>,
                               redo: seq<Command>, logs: seq<seq<Signal>>)

  class TradingEngine {
    var strategy: Strategy
    var publisher: SignalPublisher
    var invoker: CommandInvoker
    var orderBook: OrderBook

    /** What `process_tick` needs: a consistent strategy whose mean-reversion window is not
        empty (a zero window divides by zero) and a publisher without duplicates. */
    ghost predicate Ready()
      reads this, strategy, publisher
    {
      && strategy.Valid()
      && (strategy.kind.MeanReversion? ==> strategy.lookbackWindow >= 1)
      && publisher.Valid()
    }

    /** Keeps the given invoker and order book, and creates empty ones for those not given. */
    constructor (strategy: Strategy, publisher: SignalPublisher, invoker: Option<CommandInvoker>, orderBook: Option<OrderBook>)
      ensures this.strategy == strategy && this.publisher == publisher
      ensures invoker.Some? ==> this.invoker == invoker.value
      ensures invoker.None? ==> fresh(this.invoker) && this.invoker.history == [] && this.invoker.redoStack == []
      ensures orderBook.Some? ==> this.orderBook == orderBook.value
      ensures orderBook.None? ==> fresh(this.orderBook) && this.orderBook.executedOrders == []
    {
      this.strategy := strategy;
      this.publisher := publisher;
      if invoker.Some? {
        this.invoker := invoker.value;
      } else {
        this.invoker := new CommandInvoker();
      }
      if orderBook.Some? {
        this.orderBook := orderBook.value;
      } else {
        this.orderBook := new OrderBook();
      }
    }

    /** The body of `process_tick`'s loop for one signal: notify the observers, then execute
        an order command for the signal on the engine's book. The signal's notional must be
        computable, as it is for every strategy signal. */
    method Dispatch(signal: Signal)
      requires publisher.Valid() && Notional(signal).Some?
      modifies publisher.Repr, invoker, orderBook
      ensures orderBook.executedOrders == old(orderBook.executedOrders) + [signal]
      ensures invoker.history == old(invoker.history) + [ExecuteOrderCommand(orderBook, signal)]
      ensures invoker.redoStack == []
      ensures publisher.Logs() == Extend(publisher.observers, old(publisher.Logs()), [signal])
    {
      var ok;
      ghost var delivered;
      ghost var observers, before := publisher.observers, publisher.Logs();
      Untouched(invoker, publisher);
      Untouched(orderBook, publisher);
      ok, delivered := publisher.Notify(signal);
      assert ok;
      forall i | 0 <= i < |observers| ensures publisher.Logs()[i] == before[i] + Received(observers[i], [signal]) {
        match observers[i]
        case Logging(_) =>
        case Alerting(a) =>
          assert AlertsFor([signal], a.thresholdNotional) == [] + AlertFor(signal, a.thresholdNotional);
      }
      var command := ExecuteOrderCommand(orderBook, signal);
      invoker.Execute(command);
    }

    /** `process_tick`'s loop: dispatches each signal in turn. */
    method DispatchAll(signals: seq<Signal>)
      requires publisher.Valid()
      requires forall j :: 0 <= j < |signals| ==> Notional(signals[j]).Some?
      modifies publisher.Repr, invoker, orderBook
      ensures orderBook.executedOrders == old(orderBook.executedOrders) + signals
      ensures invoker.history == old(invoker.history) + OrderCommands(orderBook, signals)
      ensures invoker.redoStack == if signals == [] then old(invoker.redoStack) else []
      ensures publisher.Logs() == Extend(publisher.observers, old(publisher.Logs()), signals)
    {
      Untouched(publisher, publisher);
      ExtendNothing(publisher.observers, publisher.Logs());
      var k := 0;
      while k < |signals|
        invariant 0 <= k <= |signals|
        invariant orderBook.executedOrders == old(orderBook.executedOrders) + signals[..k]
        invariant invoker.history == old(invoker.history) + OrderCommands(orderBook, signals[..k])
        invariant invoker.redoStack == if k == 0 then old(invoker.redoStack) else []
        invariant publisher.Logs() == Extend(publisher.observers, old(publisher.Logs()), signals[..k])
      {
        var signal := signals[k];
        PrefixSnoc(signals, k);
        assert OrderCommands(orderBook, signals[..k + 1])
               == OrderCommands(orderBook, signals[..k]) + [ExecuteOrderCommand(orderBook, signal)];
        Untouched(invoker, publisher);
        Untouched(orderBook, publisher);
        ghost var before := publisher.Logs();
        Dispatch(signal);
        AppendAssoc(old(orderBook.executedOrders), signals[..k], [signal]);
        AppendAssoc(old(invoker.history), OrderCommands(orderBook, signals[..k]), [ExecuteOrderCommand(orderBook, signal)]);
        ExtendStep(publisher.observers, old(publisher.Logs()), before, publisher.Logs(), signals[..k], [signal]);
        k := k + 1;
      }
      assert signals[..k] == signals;
    }

    /** Generates the tick's signals and, for each in turn, notifies the observers and then
        executes an order command for it on the engine's book. `emitted` are the signals. */
    method ProcessTick(tick: MarketDataPoint) returns (ghost emitted: seq<Signal>)
      requires Ready()
      modifies strategy, publisher.Repr, invoker, orderBook
      ensures Ready() && strategy.ticks == old(strategy.ticks) + [tick]
      ensures emitted == SignalsFor(strategy.kind, strategy.lookbackWindow, strategy.threshold, old(strategy.history), tick)
      ensures SignalsAfter(strategy.kind, strategy.lookbackWindow, strategy.threshold, strategy.ticks)
              == SignalsAfter(strategy.kind, strategy.lookbackWindow, strategy.threshold, old(strategy.ticks)) + emitted
      ensures orderBook.executedOrders == old(orderBook.executedOrders) + emitted
      ensures invoker.history == old(invoker.history) + OrderCommands(orderBook, emitted)
      ensures invoker.redoStack == if emitted == [] then old(invoker.redoStack) else []
      ensures publisher.Logs() == Extend(publisher.observers, old(publisher.Logs()), emitted)
    {
      SignalsHaveNotional(strategy.kind, strategy.lookbackWindow, strategy.threshold, strategy.history, tick);
      var signals := strategy.GenerateSignals(tick);
      emitted := signals;
      Untouched(this, publisher);
      Untouched(strategy, publisher);
      Untouched(publisher, publisher);
      DispatchAll(signals);
    }

    /** The engine's state at one moment, as far as `run` changes it. */
    ghost function Current(): Snapshot
      requires publisher.Valid()
      reads this, strategy, publisher, publisher.Repr, invoker, orderBook
    {
      Snapshot(strategy.ticks, orderBook.executedOrders, invoker.history, invoker.redoStack, publisher.Logs())
    }

    /** Since `start`, the engine has been fed the ticks `fed` and has emitted `emitted`: the
        strategy saw them, and the book, the history and every observer got the signals. */
    ghost predicate Since(start: Snapshot, fed: seq<MarketDataPoint>, emitted: seq<Signal>)
      requires Ready()
      reads this, strategy, publisher, publisher.Repr, invoker, orderBook
    {
      && strategy.ticks == start.ticks + fed
      && SignalsAfter(strategy.kind, strategy.lookbackWindow, strategy.threshold, strategy.ticks)
         == SignalsAfter(strategy.kind, strategy.lookbackWindow, strategy.threshold, start.ticks) + emitted
      && orderBook.executedOrders == start.book + emitted
      && invoker.history == start.history + OrderCommands(orderBook, emitted)
      && invoker.redoStack == (if emitted == [] then start.redo else [])
      && |start.logs| == |publisher.observers|
      && publisher.Logs() == Extend(publisher.observers, start.logs, emitted)
    }

    /** One turn of `run`'s loop: `process_tick` on the next tick. */
    method Advance(tick: MarketDataPoint, ghost start: Snapshot, ghost fed: seq<MarketDataPoint>, ghost emitted: seq<Signal>)
      returns (ghost signals: seq<Signal>)
      requires Ready() && Since(start, fed, emitted)
      modifies strategy, publisher.Repr, invoker, orderBook
      ensures Ready() && Since(start, fed + [tick], emitted + signals)
    {
      ghost var replayed := SignalsAfter(strategy.kind, strategy.lookbackWindow, strategy.threshold, start.ticks);
      ghost var ticks, signalled := strategy.ticks, SignalsAfter(strategy.kind, strategy.lookbackWindow, strategy.threshold, strategy.ticks);
      ghost var book, history, before := orderBook.executedOrders, invoker.history, publisher.Logs();
      Untouched(this, publisher);
      Untouched(strategy, publisher);
      Untouched(publisher, publisher);
      Untouched(invoker, publisher);
      Untouched(orderBook, publisher);
      signals := ProcessTick(tick);
      AppendStep(start.ticks, ticks, strategy.ticks, fed, [tick]);
      AppendStep(replayed, signalled,
                 SignalsAfter(strategy.kind, strategy.lookbackWindow, strategy.threshold, strategy.ticks), emitted, signals);
      AppendStep(start.book, book, orderBook.executedOrders, emitted, signals);
      HistoryStep(orderBook, start.history, history, invoker.history, emitted, signals);
      ExtendStep(publisher.observers, start.logs, before, publisher.Logs(), emitted, signals);
    }

    /** `process_tick` on each tick in order. `emitted` are all the signals produced. */
    method Run(ticks: seq<MarketDataPoint>) returns (ghost emitted: seq<Signal>)
      requires Ready()
      modifies strategy, publisher.Repr, invoker, orderBook
      ensures Ready() && strategy.ticks == old(strategy.ticks) + ticks
      ensures SignalsAfter(strategy.kind, strategy.lookbackWindow, strategy.threshold, strategy.ticks)
              == SignalsAfter(strategy.kind, strategy.lookbackWindow, strategy.threshold, old(strategy.ticks)) + emitted
      ensures orderBook.executedOrders == old(orderBook.executedOrders) + emitted
      ensures invoker.history == old(invoker.history) + OrderCommands(orderBook, emitted)
      ensures invoker.redoStack == if emitted == [] then old(invoker.redoStack) else []
      ensures publisher.Logs() == Extend(publisher.observers, old(publisher.Logs()), emitted)
    {
      ghost var start := Current();
      emitted := [];
      Untouched(this, publisher);
      Untouched(publisher, publisher);
      ExtendNothing(publisher.observers, publisher.Logs());
      var k := 0;
      while k < |ticks|
        invariant 0 <= k <= |ticks|
        invariant Ready() && Since(start, ticks[..k], emitted)
      {
        PrefixSnoc(ticks, k);
        ghost var signals := Advance(ticks[k], start, ticks[..k], emitted);
        emitted := emitted + signals;
        k := k + 1;
      }
      assert ticks[..k] == ticks;
    }

    /** Replaces the strategy; the publisher, invoker and book stay. */
    method SwitchStrategy(strategy: Strategy)
      modifies this
      ensures this.strategy == strategy
      ensures publisher == old(publisher) && invoker == old(invoker) && orderBook == old(orderBook)
    {
      this.strategy := strategy;
    }
  }
}
