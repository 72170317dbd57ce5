/** The signal bus: a publisher that fans each signal out to its attached observers, and the
    two reference observers, a recording logger and a notional-threshold alerter. */
module Observers {
  import opened Wrappers
  import opened Signals
  import opened Lists

  /** Records every signal it receives. Writing to the external log sink is not modelled. */
  class LoggerObserver {
    var records: seq<Signal>

    constructor ()
      ensures records == []
    {
      records := [];
    }

    method Update(signal: Signal)
      modifies this
      ensures records == old(records) + [signal]
    {
      records := records + [signal];
    }
  }

  /** The alert recorded for a signal: a copy of the signal with its `notional` set, when the
      notional reaches the threshold; nothing otherwise (or when the notional cannot be computed). */
  function AlertFor(signal: Signal, thresholdNotional: real): seq<Signal> {
    match Notional(signal)
    case Some(notional) =>
      if notional >= thresholdNotional then [signal["notional" := Number(notional)]] else []
    case None => []
  }

  /** At most one alert per signal, exactly when the notional is computable and reaches the
      threshold; the alert keeps every field of the signal and adds `notional`. */
  lemma AlertForFields(signal: Signal, thresholdNotional: real)
    ensures var alerts := AlertFor(signal, thresholdNotional);
      && |alerts| <= 1
      && (|alerts| == 1 <==> Notional(signal).Some? && Notional(signal).value >= thresholdNotional)
      && (|alerts| == 1 ==>
            && alerts[0].Keys == signal.Keys + {"notional"}
            && alerts[0]["notional"] == Number(Notional(signal).value)
            && forall k :: k in signal && k != "notional" ==> alerts[0][k] == signal[k])
  {
  }

  /** A signal of size 10 at price 200 against a threshold of 1000 raises one alert, whose
      notional is 2000. */
  lemma AlertExample(signal: Signal)
    requires "size" in signal && signal["size"] == Number(10.0)
    requires "price" in signal && signal["price"] == Number(200.0)
    ensures AlertFor(signal, 1000.0) == [signal["notional" := Number(2000.0)]]
  {
    assert Notional(signal) == Some(2000.0);
  }

  /** The alerts recorded for a sequence of signals delivered one after the other. */
  function AlertsFor(signals: seq<Signal>, thresholdNotional: real): seq<Signal> {
    if signals == [] then []
    else AlertsFor(signals[..|signals| - 1], thresholdNotional) + AlertFor(signals[|signals| - 1], thresholdNotional)
  }

  lemma {:induction false} AlertsForConcat(a: seq<Signal>, b: seq<Signal>, thresholdNotional: real)
    ensures AlertsFor(a + b, thresholdNotional) == AlertsFor(a, thresholdNotional) + AlertsFor(b, thresholdNotional)
    decreases |b|
  {
    if b != [] {
      assert (a + b)[..|a + b| - 1] == a + b[..|b| - 1];
      AlertsForConcat(a, b[..|b| - 1], thresholdNotional);
    } else {
      assert a + b == a;
    }
  }

  /** Records a copy of every signal whose notional `abs(size) * price` reaches the threshold. */
  class AlertObserver {
    const thresholdNotional: real
    var alerts: seq<Signal>

    constructor (thresholdNotional: real)
      ensures this.thresholdNotional == thresholdNotional && alerts == []
    {
      this.thresholdNotional := thresholdNotional;
      alerts := [];
    }

    /** `ok` is false when the notional cannot be computed (the TypeError of the source);
        nothing is recorded then. */
    method Update(signal: Signal) returns (ok: bool)
      modifies this
      ensures ok <==> Notional(signal).Some?
      ensures alerts == old(alerts) + AlertFor(signal, thresholdNotional)
    {
      var size := Get(signal, "size", Number(1.0));
      var price := Get(signal, "price", Number(0.0));
      if !size.Number? || !price.Number? {
        return false;
      }
      var notional := Abs(size.number) * price.number;
      if notional >= thresholdNotional {
        var alert := signal["notional" := Number(notional)];
        alerts := alerts + [alert];
      }
      ok := true;
    }
  }

  /** An attached observer: one of the two reference observers. */
  datatype Observer = Logging(logger: LoggerObserver) | Alerting(alerter: AlertObserver)

  /** The object behind an observer. */
  function Target(o: Observer): object {
    match o
    case Logging(l) => l
    case Alerting(a) => a
  }

  /** What an observer has recorded so far: a logger's records, an alerter's alerts. */
  function Log(o: Observer): seq<Signal>
    reads Target(o)
  {
    match o
    case Logging(l) => l.records
    case Alerting(a) => a.alerts
  }

  /** What an observer records when the signals are delivered to it one after the other. */
  function Received(o: Observer, signals: seq<Signal>): seq<Signal> {
    match o
    case Logging(_) => signals
    case Alerting(a) => AlertsFor(signals, a.thresholdNotional)
  }

  /** The logs of a list of observers after each has received the signals. */
  function Extend(observers: seq<Observer>, logs: seq<seq<Signal>>, signals: seq<Signal>): (extended: seq<seq<Signal>>)
    requires |logs| == |observers|
    ensures |extended| == |observers|
    ensures forall i :: 0 <= i < |observers| ==> extended[i] == logs[i] + Received(observers[i], signals)
  {
    seq(|observers|, i requires 0 <= i < |observers| => logs[i] + Received(observers[i], signals))
  }

  /** Receiving nothing leaves every log as it is. */
  lemma ExtendNothing(observers: seq<Observer>, logs: seq<seq<Signal>>)
    requires |logs| == |observers|
    ensures Extend(observers, logs, []) == logs
  {
    forall i | 0 <= i < |observers| ensures Extend(observers, logs, [])[i] == logs[i] {
      assert Received(observers[i], []) == [];
      assert logs[i] + [] == logs[i];
    }
  }

  /** Receiving one run of signals and then another is receiving both runs at once. */
  lemma ExtendStep(observers: seq<Observer>, logs0: seq<seq<Signal>>, logs1: seq<seq<Signal>>, logs2: seq<seq<Signal>>,
                   a: seq<Signal>, b: seq<Signal>)
    requires |logs0| == |observers|
    requires logs1 == Extend(observers, logs0, a)
    requires logs2 == Extend(observers, logs1, b)
    ensures logs2 == Extend(observers, logs0, a + b)
  {
    forall i | 0 <= i < |observers|
      ensures logs2[i] == logs0[i] + Received(observers[i], a + b)
    {
      match observers[i]
      case Logging(_) =>
        AppendAssoc(logs0[i], a, b);
      case Alerting(alerter) =>
        AlertsForConcat(a, b, alerter.thresholdNotional);
        AppendAssoc(logs0[i], AlertsFor(a, alerter.thresholdNotional), AlertsFor(b, alerter.thresholdNotional));
    }
  }

  /** How far a notification pass gets: up to the first alerter that fails on the signal,
      or to the end of the list. The observers before this index receive the signal. */
  function Reach(observers: seq<Observer>, signal: Signal): (k: nat)
    ensures k <= |observers|
    ensures forall i :: 0 <= i < k ==> observers[i].Logging? || Notional(signal).Some?
    ensures k < |observers| ==> observers[k].Alerting? && Notional(signal).None?
    ensures Notional(signal).Some? ==> k == |observers|
  {
    if observers == [] then 0
    else if observers[0].Alerting? && Notional(signal).None? then 0
    else 1 + Reach(observers[1..], signal)
  }

  /** Two different observers never share their object: a logger is never an alerter, and
      each wraps the object it names. */
  lemma DistinctTargets(observers: seq<Observer>, i: int, j: int)
    requires NoDuplicates(observers)
    requires 0 <= i < |observers| && 0 <= j < |observers| && i != j
    ensures Target(observers[i]) != Target(observers[j])
  {
    if i < j {
      assert observers[i] != observers[j];
    } else {
      assert observers[j] != observers[i];
    }
  }

  /** The objects of a list of observers. */
  function Targets(observers: seq<Observer>): set<object> {
    set o | o in observers :: Target(o)
  }

  /** One observer's `update(signal)`; `ok` is false only for an alerter that cannot compute
      the notional. */
  method Deliver(observer: Observer, signal: Signal) returns (ok: bool)
    modifies Target(observer)
    ensures ok <==> observer.Logging? || Notional(signal).Some?
    ensures observer.Logging? ==> observer.logger.records == old(observer.logger.records) + [signal]
    ensures observer.Alerting? ==>
      observer.alerter.alerts == old(observer.alerter.alerts) + AlertFor(signal, observer.alerter.thresholdNotional)
  {
    match observer {
      case Logging(l) =>
        l.Update(signal);
        ok := true;
      case Alerting(a) =>
        ok := a.Update(signal);
    }
  }

  /** Keeps an ordered list of distinct observers and notifies them in attachment order. */
  class SignalPublisher {
    var observers: seq<Observer>
    /** The objects of the attached observers: what a notification may update. */
    ghost var Repr: set<object>

    ghost predicate Valid()
      reads this
    {
      && NoDuplicates(observers)
      && Repr == Targets(observers)
      && (forall x :: x in Repr ==> x is LoggerObserver || x is AlertObserver)
    }

    /** The logs of the attached observers, in attachment order. */
    ghost function Logs(): (logs: seq<seq<Signal>>)
      requires Valid()
      reads this, Repr
      ensures |logs| == |observers|
      ensures forall i :: 0 <= i < |observers| ==> logs[i] == Log(observers[i])
    {
      seq(|observers|, i reads this, Repr requires 0 <= i < |observers| && Valid() => Log(observers[i]))
    }

    constructor ()
      ensures Valid() && observers == [] && Repr == {}
    {
      observers := [];
      Repr := {};
    }

    /** Appends the observer unless it is already attached. */
    method Attach(observer: Observer)
      requires Valid()
      modifies this
      ensures Valid()
      ensures observers == if observer in old(observers) then old(observers) else old(observers) + [observer]
      ensures Repr == if observer in old(observers) then old(Repr) else old(Repr) + {Target(observer)}
    {
      if observer !in observers {
        observers := observers + [observer];
        Repr := Repr + {Target(observer)};
      }
    }

    /** Removes the observer when attached; the others keep their order. */
    method Detach(observer: Observer)
      requires Valid()
      modifies this
      ensures Valid()
      ensures observers == RemoveFirst(old(observers), observer)
      ensures observer !in observers
      ensures forall o :: o in observers <==> o in old(observers) && o != observer
      ensures Repr == if observer in old(observers) then old(Repr) - {Target(observer)} else old(Repr)
    {
      var before := observers;
      RemoveFirstNoDuplicates(before, observer);
      observers := RemoveFirst(before, observer);
      forall o ensures o in observers <==> o in before && o != observer {
        RemoveFirstMembers(before, observer, o);
      }
      if observer in before {
        var j := IndexOf(before, observer);
        forall i | 0 <= i < |observers| ensures Target(observers[i]) in Repr - {Target(observer)} {
          var k := IndexOf(before, observers[i]);
          assert k != j;
          DistinctTargets(before, k, j);
        }
        Repr := Repr - {Target(observer)};
      }
    }

    /** Delivers the signal to each observer attached at call time, once and in attachment
        order, over a snapshot of the list. An alerter that cannot compute the notional stops
        the pass (`ok` is false) and the remaining observers get nothing. `delivered` lists
        the observers whose update ran, in the order they ran. */
    method Notify(signal: Signal) returns (ok: bool, ghost delivered: seq<Observer>)
      requires Valid()
      modifies Repr
      ensures ok <==> Reach(observers, signal) == |observers|
      ensures delivered == observers[..Reach(observers, signal)]
      ensures forall i :: 0 <= i < |observers| && observers[i].Logging? ==>
        observers[i].logger.records
          == old(observers[i].logger.records) + (if i < Reach(observers, signal) then [signal] else [])
      ensures forall i :: 0 <= i < |observers| && observers[i].Alerting? ==>
        observers[i].alerter.alerts
          == old(observers[i].alerter.alerts)
             + (if i < Reach(observers, signal) then AlertFor(signal, observers[i].alerter.thresholdNotional) else [])
    {
      var snapshot := observers;
      assert this !in Repr;
      var reach := Reach(snapshot, signal);
      delivered := [];
      var k := 0;
      ok := true;
      while k < |snapshot|
        invariant 0 <= k <= reach
        invariant ok
        invariant delivered == snapshot[..k]
        invariant forall i :: 0 <= i < |snapshot| && snapshot[i].Logging? ==>
          snapshot[i].logger.records == old(snapshot[i].logger.records) + (if i < k then [signal] else [])
        invariant forall i :: 0 <= i < |snapshot| && snapshot[i].Alerting? ==>
          snapshot[i].alerter.alerts
            == old(snapshot[i].alerter.alerts) + (if i < k then AlertFor(signal, snapshot[i].alerter.thresholdNotional) else [])
      {
        var observer := snapshot[k];
        forall i | 0 <= i < |snapshot| && i != k ensures Target(snapshot[i]) != Target(observer) {
          DistinctTargets(snapshot, i, k);
        }
        var updated := Deliver(observer, signal);
        if !updated {
          assert k == reach;
          return false, delivered;
        }
        delivered := delivered + [observer];
        k := k + 1;
      }
    }
  }
}
