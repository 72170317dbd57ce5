/** Reporting helpers: a reporter that wires a logger and an alerter to a publisher and
    counts what they recorded, and an aggregate snapshot of a portfolio tree. */
module Reporting {
  import Signals
  import opened Observers
  import opened Models
  import opened Lists

  // ------------------------------------------------------------ signal reporter

  /** The counts `summary` reports. */
  datatype Counts = Counts(signalsLogged: nat, alertsTriggered: nat)

  /** Whether the alerter records an alert for the signal. */
  predicate Triggers(signal: Signals.Signal, thresholdNotional: real) {
    Signals.Notional(signal).Some? && Signals.Notional(signal).value >= thresholdNotional
  }

  /** The positions, in a list of signals, of those that raise an alert. */
  function Triggering(signals: seq<Signals.Signal>, thresholdNotional: real): set<int> {
    set i | 0 <= i < |signals| && Triggers(signals[i], thresholdNotional)
  }

  /** An alerter that has received the signals holds one alert per signal that reaches the
      threshold, so never more alerts than signals. */
  lemma {:induction false} AlertCount(signals: seq<Signals.Signal>, thresholdNotional: real)
    ensures |AlertsFor(signals, thresholdNotional)| == |Triggering(signals, thresholdNotional)|
    ensures |AlertsFor(signals, thresholdNotional)| <= |signals|
  {
    if signals != [] {
      var n := |signals| - 1;
      var init, last := signals[..n], signals[n];
      AlertCount(init, thresholdNotional);
      AlertForFields(last, thresholdNotional);
      var before := Triggering(init, thresholdNotional);
      assert n !in before;
      assert Triggering(signals, thresholdNotional) == before + (if Triggers(last, thresholdNotional) then {n} else {}) by {
        forall i | 0 <= i < n ensures signals[i] == init[i] { }
      }
    }
  }

  class SignalReporter {
    const loggerObserver: LoggerObserver
    const alertObserver: AlertObserver

    /** Creates a logger and an alerter with the given threshold and attaches them to the
        publisher, the logger first. */
    constructor (publisher: SignalPublisher, alertThreshold: real)
      requires publisher.Valid()
      modifies publisher
      ensures publisher.Valid()
      ensures fresh(loggerObserver) && fresh(alertObserver)
      ensures loggerObserver.records == [] && alertObserver.alerts == []
      ensures alertObserver.thresholdNotional == alertThreshold
      ensures publisher.observers == old(publisher.observers) + [Logging(loggerObserver), Alerting(alertObserver)]
      ensures publisher.Repr == old(publisher.Repr) + {loggerObserver, alertObserver}
    {
      var logger := new LoggerObserver();
      var alerter := new AlertObserver(alertThreshold);
      loggerObserver := logger;
      alertObserver := alerter;
      new;
      assert Logging(logger) !in publisher.observers by {
        assert logger !in publisher.Repr;
      }
      publisher.Attach(Logging(logger));
      assert Alerting(alerter) !in publisher.observers by {
        assert alerter !in publisher.Repr - {logger};
      }
      publisher.Attach(Alerting(alerter));
    }

    /** `summary`: how many signals the logger recorded and how many alerts the alerter raised. */
    function Summary(): Counts
      reads loggerObserver, alertObserver
    {
      Counts(|loggerObserver.records|, |alertObserver.alerts|)
    }

    /** Once the publisher has delivered a run of signals to a reporter's two observers, fresh
        when attached, the summary counts every signal and one alert per signal that reaches
        the threshold, so never more alerts than signals. */
    lemma SummaryAfter(publisher: SignalPublisher, i: nat, logs: seq<seq<Signals.Signal>>, signals: seq<Signals.Signal>)
      requires publisher.Valid()
      requires i + 1 < |publisher.observers|
      requires publisher.observers[i] == Logging(loggerObserver) && publisher.observers[i + 1] == Alerting(alertObserver)
      requires |logs| == |publisher.observers| && logs[i] == [] && logs[i + 1] == []
      requires publisher.Logs() == Extend(publisher.observers, logs, signals)
      ensures Summary().signalsLogged == |signals|
      ensures Summary().alertsTriggered == |Triggering(signals, alertObserver.thresholdNotional)|
      ensures Summary().alertsTriggered <= Summary().signalsLogged
    {
      assert loggerObserver.records == publisher.Logs()[i] == [] + signals;
      assert alertObserver.alerts == publisher.Logs()[i + 1] == [] + AlertsFor(signals, alertObserver.thresholdNotional);
      AlertCount(signals, alertObserver.thresholdNotional);
    }
  }

  // --------------------------------------------------------- portfolio snapshot

  /** The figures `portfolio_snapshot` reports. */
  datatype Snapshot = Snapshot(positions: nat, totalValue: real, symbols: nat)

  /** The symbols of a list of positions, in order. */
  function SymbolsOf(positions: seq<Component>): (symbols: seq<string>)
    requires forall i :: 0 <= i < |positions| ==> positions[i].Position?
    ensures |symbols| == |positions|
    ensures forall i :: 0 <= i < |positions| ==> symbols[i] == positions[i].symbol
  {
    seq(|positions|, i requires 0 <= i < |positions| && positions[i].Position? => positions[i].symbol)
  }

  /** The snapshot of a tree: the number of positions it holds, its value, which is the sum of
      the values of those positions, and the number of distinct symbols among them, which is
      at most the number of positions and at least one when there is a position. */
  function SnapshotOf(c: Component): (s: Snapshot)
    ensures s.positions == |Positions(c)|
    ensures s.totalValue == ValueOf(Positions(c))
    ensures s.symbols <= s.positions
    ensures s.positions > 0 ==> s.symbols > 0
  {
    var symbols := SymbolsOf(Positions(c));
    ElementCount(symbols);
    ValueIsSumOfPositions(c);
    assert |symbols| > 0 ==> symbols[0] in Elements(symbols);
    Snapshot(|Positions(c)|, Value(c), |Elements(symbols)|)
  }

  /** Every position of the tree has its own symbol exactly when the snapshot counts as many
      symbols as positions. */
  lemma DistinctSymbols(c: Component)
    ensures SnapshotOf(c).symbols == SnapshotOf(c).positions <==> NoDuplicates(SymbolsOf(Positions(c)))
  {
    ElementCount(SymbolsOf(Positions(c)));
  }

  /** A lone position is one position of one symbol worth quantity times price. */
  lemma PositionSnapshot(symbol: string, quantity: real, price: real)
    ensures SnapshotOf(Position(symbol, quantity, price)) == Snapshot(1, quantity * price, 1)
  {
    var symbols := SymbolsOf(Positions(Position(symbol, quantity, price)));
    assert symbols == [symbol];
    assert Elements(symbols) == {symbol};
  }

  /** `portfolio_snapshot` on a group: reads its value and its positions and changes nothing. */
  method PortfolioSnapshot(group: PortfolioGroup) returns (s: Snapshot)
    ensures s == SnapshotOf(group.AsComponent())
  {
    var totalValue := group.GetValue();
    var positions := group.GetPositions();
    s := Snapshot(|positions|, totalValue, |Elements(SymbolsOf(positions))|);
  }
}
