/** Rolling-window trading strategies. Each keeps, per symbol, a window holding at most
    `lookbackWindow` of the most recent prices (oldest evicted first) and emits at most one
    BUY/SELL signal per tick once the window is full. */
module Strategies {
  import opened Wrappers
  import opened DataLoader
  import opened Signals
  import Analytics

  /** The two concrete strategies. */
  datatype Kind = MeanReversion | Breakout

  /** The class name a strategy stamps into its signals. */
  function ClassName(kind: Kind): string {
    match kind
    case MeanReversion => "MeanReversionStrategy"
    case Breakout => "BreakoutStrategy"
  }

  /** The last `n` elements of `s`, or all of `s` when it is shorter. */
  function LastN(s: seq<real>, n: nat): (r: seq<real>)
    ensures |r| == if |s| <= n then |s| else n
  {
    if |s| <= n then s else s[|s| - n..]
  }

  /** Appending to a bounded deque: the new price goes last and, once `n` prices are held,
      the oldest is evicted. */
  function Push(window: seq<real>, price: real, n: nat): (w: seq<real>)
    ensures |w| == if |window| < n then |window| + 1 else n
    ensures |window| < n ==> w == window + [price]
    ensures n > 0 ==> w[|w| - 1] == price
  {
    LastN(window + [price], n)
  }

  /** Pushing onto the last `n` prices keeps exactly the last `n` prices. */
  lemma {:induction false} PushKeepsLastN(prices: seq<real>, price: real, n: nat)
    ensures Push(LastN(prices, n), price, n) == LastN(prices + [price], n)
  {
    var s := prices + [price];
    if |prices| > n && n > 0 {
      assert LastN(prices, n) + [price] == s[|s| - n - 1..];
    } else if |prices| > n {
      assert LastN(s, n) == [];
    }
  }

  /** The maximum of a non-empty sequence of prices. */
  function Max(s: seq<real>): (m: real)
    requires |s| > 0
    ensures m in s
    ensures forall i :: 0 <= i < |s| ==> s[i] <= m
  {
    if |s| == 1 then s[0] else Analytics.MaxReal(Max(s[..|s| - 1]), s[|s| - 1])
  }

  /** The minimum of a non-empty sequence of prices. */
  function Min(s: seq<real>): (m: real)
    requires |s| > 0
    ensures m in s
    ensures forall i :: 0 <= i < |s| ==> m <= s[i]
  {
    if |s| == 1 then s[0] else Analytics.MinReal(Min(s[..|s| - 1]), s[|s| - 1])
  }

  /** The order a strategy emits for a tick: symbol, price and timestamp from the tick, a
      fixed size of 100, the strategy's class name and its metric under `metricKey`. */
  function BuildSignal(tick: MarketDataPoint, action: string, strategy: string, metricKey: string, metric: real): (s: Signal)
  {
    map["symbol" := Text(tick.symbol), "price" := Number(tick.price), "action" := Text(action),
        "strategy" := Text(strategy), metricKey := Number(metric), "timestamp" := Time(tick.timestamp),
        "size" := Number(100.0)]
  }

  /** A strategy's signal carries exactly the seven fields, copied from the tick and the
      decision, and its notional (size 100 times the price) is always computable. */
  lemma BuildSignalFields(tick: MarketDataPoint, action: string, strategy: string, metricKey: string, metric: real)
    requires metricKey == "deviation" || metricKey == "breakout"
    ensures BuildSignal(tick, action, strategy, metricKey, metric).Keys
            == {"symbol", "price", "action", "strategy", metricKey, "timestamp", "size"}
    ensures var s := BuildSignal(tick, action, strategy, metricKey, metric);
      && s["symbol"] == Text(tick.symbol) && s["price"] == Number(tick.price) && s["timestamp"] == Time(tick.timestamp)
      && s["action"] == Text(action) && s["strategy"] == Text(strategy) && s[metricKey] == Number(metric)
      && s["size"] == Number(100.0)
    ensures Notional(BuildSignal(tick, action, strategy, metricKey, metric)) == Some(100.0 * tick.price)
  {
    var s := BuildSignal(tick, action, strategy, metricKey, metric);
    assert s["size"] == Number(100.0) && s["price"] == Number(tick.price);
    assert Get(s, "size", Number(1.0)) == Number(100.0);
    assert Get(s, "price", Number(0.0)) == Number(tick.price);
    assert Abs(100.0) == 100.0;
    assert Notional(s) == Some(Abs(100.0) * tick.price);
  }

  /** Relative move of the price beyond a reference level; 0 when the level is 0. */
  function MoveFrom(level: real, price: real): real {
    if level != 0.0 then (price - level) / level else 0.0
  }

  /** Relative deviation of the price from the window mean; 0 when the mean is 0. */
  function Deviation(window: seq<real>, price: real): real
    requires |window| > 0
  {
    MoveFrom(Analytics.Sum(window) / (|window| as real), price)
  }

  /** The mean-reversion decision on a symbol's window (already holding the tick's price). */
  function MeanReversionSignals(window: seq<real>, tick: MarketDataPoint, lookbackWindow: nat, threshold: real): (signals: seq<Signal>)
    requires |window| > 0
  {
    if |window| < lookbackWindow then []
    else
      var deviation := Deviation(window, tick.price);
      if deviation >= threshold then [BuildSignal(tick, "SELL", ClassName(MeanReversion), "deviation", deviation)]
      else if deviation <= -threshold then [BuildSignal(tick, "BUY", ClassName(MeanReversion), "deviation", deviation)]
      else []
  }

  /** The breakout decision on a symbol's window (already holding the tick's price): the
      reference set is the window without its last price. */
  function BreakoutSignals(window: seq<real>, tick: MarketDataPoint, lookbackWindow: nat, threshold: real): (signals: seq<Signal>)
  {
    if |window| < lookbackWindow || |window| < 2 then []
    else
      var past := window[..|window| - 1];
      var breakoutUp := MoveFrom(Max(past), tick.price);
      var breakoutDown := MoveFrom(Min(past), tick.price);
      if breakoutUp >= threshold then [BuildSignal(tick, "BUY", ClassName(Breakout), "breakout", breakoutUp)]
      else if breakoutDown <= -threshold then [BuildSignal(tick, "SELL", ClassName(Breakout), "breakout", breakoutDown)]
      else []
  }

  /** Mean reversion emits at most one signal, exactly when the window is full and the
      deviation reaches the threshold either way: SELL above the mean, BUY below it. */
  lemma MeanReversionSignalsMeaning(window: seq<real>, tick: MarketDataPoint, lookbackWindow: nat, threshold: real)
    requires |window| > 0
    ensures var signals := MeanReversionSignals(window, tick, lookbackWindow, threshold);
      && |signals| <= 1
      && (|signals| == 1 <==>
            |window| >= lookbackWindow
            && (Deviation(window, tick.price) >= threshold || Deviation(window, tick.price) <= -threshold))
      && (|signals| == 1 ==>
            signals[0] == BuildSignal(tick, if Deviation(window, tick.price) >= threshold then "SELL" else "BUY",
                                      "MeanReversionStrategy", "deviation", Deviation(window, tick.price)))
  {
  }

  /** Breakout emits at most one signal, exactly when the window is full, holds a past price
      and the price moves beyond the past maximum (BUY) or minimum (SELL) by the threshold;
      the upward breakout is tested first. */
  lemma BreakoutSignalsMeaning(window: seq<real>, tick: MarketDataPoint, lookbackWindow: nat, threshold: real)
    ensures var signals := BreakoutSignals(window, tick, lookbackWindow, threshold);
      && |signals| <= 1
      && (|signals| == 1 <==>
            |window| >= lookbackWindow && |window| >= 2
            && (MoveFrom(Max(window[..|window| - 1]), tick.price) >= threshold
                || MoveFrom(Min(window[..|window| - 1]), tick.price) <= -threshold))
      && (|signals| == 1 ==>
            var past := window[..|window| - 1];
            signals[0] == if MoveFrom(Max(past), tick.price) >= threshold
                          then BuildSignal(tick, "BUY", "BreakoutStrategy", "breakout", MoveFrom(Max(past), tick.price))
                          else BuildSignal(tick, "SELL", "BreakoutStrategy", "breakout", MoveFrom(Min(past), tick.price)))
  {
  }

  /** The window a symbol has before a tick: absent symbols start empty. */
  function WindowOf(history: map<string, seq<real>>, symbol: string): seq<real> {
    if symbol in history then history[symbol] else []
  }

  /** The signals one tick produces against the histories held before it. */
  function SignalsFor(kind: Kind, lookbackWindow: nat, threshold: real, history: map<string, seq<real>>, tick: MarketDataPoint): seq<Signal>
    requires kind.MeanReversion? ==> lookbackWindow >= 1
  {
    var window := Push(WindowOf(history, tick.symbol), tick.price, lookbackWindow);
    match kind
    case MeanReversion => MeanReversionSignals(window, tick, lookbackWindow, threshold)
    case Breakout => BreakoutSignals(window, tick, lookbackWindow, threshold)
  }

  /** Every signal a strategy emits has a computable notional, 100 times the tick's price:
      an alert observer never fails on it. */
  lemma SignalsHaveNotional(kind: Kind, lookbackWindow: nat, threshold: real, history: map<string, seq<real>>, tick: MarketDataPoint)
    requires kind.MeanReversion? ==> lookbackWindow >= 1
    ensures forall i :: 0 <= i < |SignalsFor(kind, lookbackWindow, threshold, history, tick)| ==>
              Notional(SignalsFor(kind, lookbackWindow, threshold, history, tick)[i]) == Some(100.0 * tick.price)
  {
    var signals := SignalsFor(kind, lookbackWindow, threshold, history, tick);
    var window := Push(WindowOf(history, tick.symbol), tick.price, lookbackWindow);
    if |signals| == 1 {
      match kind {
        case MeanReversion =>
          var deviation := Deviation(window, tick.price);
          BuildSignalFields(tick, if deviation >= threshold then "SELL" else "BUY", "MeanReversionStrategy", "deviation", deviation);
        case Breakout =>
          var past := window[..|window| - 1];
          var breakoutUp := MoveFrom(Max(past), tick.price);
          if breakoutUp >= threshold {
            BuildSignalFields(tick, "BUY", "BreakoutStrategy", "breakout", breakoutUp);
          } else {
            BuildSignalFields(tick, "SELL", "BreakoutStrategy", "breakout", MoveFrom(Min(past), tick.price));
          }
      }
    }
  }

  /** The per-symbol windows after a sequence of ticks. */
  function HistoryAfter(lookbackWindow: nat, ticks: seq<MarketDataPoint>): map<string, seq<real>> {
    if ticks == [] then map[]
    else
      var history := HistoryAfter(lookbackWindow, ticks[..|ticks| - 1]);
      var tick := ticks[|ticks| - 1];
      history[tick.symbol := Push(WindowOf(history, tick.symbol), tick.price, lookbackWindow)]
  }

  /** The prices of one symbol's ticks, in arrival order. */
  function PricesOf(ticks: seq<MarketDataPoint>, symbol: string): seq<real> {
    if ticks == [] then []
    else
      PricesOf(ticks[..|ticks| - 1], symbol)
      + (if ticks[|ticks| - 1].symbol == symbol then [ticks[|ticks| - 1].price] else [])
  }

  /** The signals of a whole replay, tick after tick. */
  function SignalsAfter(kind: Kind, lookbackWindow: nat, threshold: real, ticks: seq<MarketDataPoint>): seq<Signal>
    requires kind.MeanReversion? ==> lookbackWindow >= 1
  {
    if ticks == [] then []
    else
      var before := ticks[..|ticks| - 1];
      SignalsAfter(kind, lookbackWindow, threshold, before)
      + SignalsFor(kind, lookbackWindow, threshold, HistoryAfter(lookbackWindow, before), ticks[|ticks| - 1])
  }

  /** One more tick updates only its own symbol's window. */
  lemma HistoryAfterSnoc(lookbackWindow: nat, ticks: seq<MarketDataPoint>, tick: MarketDataPoint)
    ensures HistoryAfter(lookbackWindow, ticks + [tick])
      == HistoryAfter(lookbackWindow, ticks)[tick.symbol := Push(WindowOf(HistoryAfter(lookbackWindow, ticks), tick.symbol), tick.price, lookbackWindow)]
  {
    assert (ticks + [tick])[..|ticks|] == ticks;
  }

  /** One more tick appends its own signals to those of the replay so far. */
  lemma SignalsAfterSnoc(kind: Kind, lookbackWindow: nat, threshold: real, ticks: seq<MarketDataPoint>, tick: MarketDataPoint)
    requires kind.MeanReversion? ==> lookbackWindow >= 1
    ensures SignalsAfter(kind, lookbackWindow, threshold, ticks + [tick])
      == SignalsAfter(kind, lookbackWindow, threshold, ticks) + SignalsFor(kind, lookbackWindow, threshold, HistoryAfter(lookbackWindow, ticks), tick)
  {
    assert (ticks + [tick])[..|ticks|] == ticks;
  }

  /** Each symbol's window holds exactly its last `lookbackWindow` prices, newest last. */
  lemma {:induction false} WindowIsLastPrices(lookbackWindow: nat, ticks: seq<MarketDataPoint>, symbol: string)
    ensures WindowOf(HistoryAfter(lookbackWindow, ticks), symbol) == LastN(PricesOf(ticks, symbol), lookbackWindow)
  {
    if ticks != [] {
      var before := ticks[..|ticks| - 1];
      var tick := ticks[|ticks| - 1];
      var history := HistoryAfter(lookbackWindow, before);
      var pushed := Push(WindowOf(history, tick.symbol), tick.price, lookbackWindow);
      assert HistoryAfter(lookbackWindow, ticks) == history[tick.symbol := pushed];
      WindowIsLastPrices(lookbackWindow, before, symbol);
      if tick.symbol == symbol {
        assert PricesOf(ticks, symbol) == PricesOf(before, symbol) + [tick.price];
        PushKeepsLastN(PricesOf(before, symbol), tick.price, lookbackWindow);
      } else {
        assert PricesOf(ticks, symbol) == PricesOf(before, symbol);
      }
    }
  }

  /** A symbol has a window exactly when one of its ticks has arrived. */
  lemma {:induction false} WindowExistsIffSeen(lookbackWindow: nat, ticks: seq<MarketDataPoint>, symbol: string)
    ensures symbol in HistoryAfter(lookbackWindow, ticks) <==> exists i :: 0 <= i < |ticks| && ticks[i].symbol == symbol
  {
    if ticks != [] {
      var before := ticks[..|ticks| - 1];
      WindowExistsIffSeen(lookbackWindow, before, symbol);
      if symbol in HistoryAfter(lookbackWindow, before) {
        var i :| 0 <= i < |before| && before[i].symbol == symbol;
        assert ticks[i].symbol == symbol;
      }
      if exists i :: 0 <= i < |ticks| && ticks[i].symbol == symbol {
        var i :| 0 <= i < |ticks| && ticks[i].symbol == symbol;
        if i < |before| {
          assert before[i].symbol == symbol;
        }
      }
    }
  }

  /** A tick never changes another symbol's window. */
  lemma OtherWindowsUnchanged(lookbackWindow: nat, ticks: seq<MarketDataPoint>, tick: MarketDataPoint, symbol: string)
    requires symbol != tick.symbol
    ensures WindowOf(HistoryAfter(lookbackWindow, ticks + [tick]), symbol) == WindowOf(HistoryAfter(lookbackWindow, ticks), symbol)
  {
    assert (ticks + [tick])[..|ticks + [tick]| - 1] == ticks;
  }

  /** No signal while a symbol's window is warming up. */
  lemma NoSignalDuringWarmUp(kind: Kind, lookbackWindow: nat, threshold: real, history: map<string, seq<real>>, tick: MarketDataPoint)
    requires kind.MeanReversion? ==> lookbackWindow >= 1
    requires |WindowOf(history, tick.symbol)| + 1 < lookbackWindow
    ensures SignalsFor(kind, lookbackWindow, threshold, history, tick) == []
  {
  }

  /** With a positive level and threshold, a move of at least the threshold lies above the
      level. */
  lemma MoveAbove(level: real, price: real, threshold: real)
    requires level > 0.0 && threshold > 0.0
    requires MoveFrom(level, price) >= threshold
    ensures price > level
  {
    var move := MoveFrom(level, price);
    assert price - level == move * level;
    assert move * level > 0.0;
  }

  /** With a positive level and threshold, a move of at most minus the threshold lies below
      the level. */
  lemma MoveBelow(level: real, price: real, threshold: real)
    requires level > 0.0 && threshold > 0.0
    requires MoveFrom(level, price) <= -threshold
    ensures price < level
  {
    var move := MoveFrom(level, price);
    assert level - price == (-move) * level;
    assert (-move) * level > 0.0;
  }

  /** With a positive threshold and a positive mean, mean reversion sells (deviation at least
      the threshold) only above the mean and buys (deviation at most minus the threshold) only
      below it. */
  lemma MeanReversionDirection(window: seq<real>, price: real, threshold: real)
    requires |window| > 0 && threshold > 0.0
    requires Analytics.Sum(window) / (|window| as real) > 0.0
    ensures Deviation(window, price) >= threshold ==> price > Analytics.Sum(window) / (|window| as real)
    ensures Deviation(window, price) <= -threshold ==> price < Analytics.Sum(window) / (|window| as real)
  {
    var average := Analytics.Sum(window) / (|window| as real);
    if Deviation(window, price) >= threshold {
      MoveAbove(average, price, threshold);
    }
    if Deviation(window, price) <= -threshold {
      MoveBelow(average, price, threshold);
    }
  }

  /** With a positive threshold and positive past prices, a breakout buys (move above the
      past maximum at least the threshold) only above every past price and sells (move below
      the past minimum at most minus the threshold) only below every past price. */
  lemma BreakoutDirection(past: seq<real>, price: real, threshold: real)
    requires |past| > 0 && threshold > 0.0
    requires forall i :: 0 <= i < |past| ==> past[i] > 0.0
    ensures MoveFrom(Max(past), price) >= threshold ==> forall i :: 0 <= i < |past| ==> price > past[i]
    ensures MoveFrom(Min(past), price) <= -threshold ==> forall i :: 0 <= i < |past| ==> price < past[i]
  {
    if MoveFrom(Max(past), price) >= threshold {
      MoveAbove(Max(past), price, threshold);
    }
    if MoveFrom(Min(past), price) <= -threshold {
      MoveBelow(Min(past), price, threshold);
    }
  }

  /** A strategy object: its kind, parameters and the per-symbol windows it has built up.
      `ticks` is the sequence of ticks it has been fed. */
  class Strategy {
    const kind: Kind
    const lookbackWindow: nat
    const threshold: real
    var history: map<string, seq<real>>
    ghost var ticks: seq<MarketDataPoint>

    ghost predicate Valid()
      reads this
    {
      history == HistoryAfter(lookbackWindow, ticks)
    }

    constructor MeanReversionStrategy(lookbackWindow: nat, threshold: real)
      ensures Valid() && ticks == [] && history == map[]
      ensures kind == MeanReversion && this.lookbackWindow == lookbackWindow && this.threshold == threshold
    {
      kind := MeanReversion;
      this.lookbackWindow := lookbackWindow;
      this.threshold := threshold;
      history := map[];
      ticks := [];
    }

    constructor BreakoutStrategy(lookbackWindow: nat, threshold: real)
      ensures Valid() && ticks == [] && history == map[]
      ensures kind == Breakout && this.lookbackWindow == lookbackWindow && this.threshold == threshold
    {
      kind := Breakout;
      this.lookbackWindow := lookbackWindow;
      this.threshold := threshold;
      history := map[];
      ticks := [];
    }

    /** Pushes the tick's price onto its symbol's window and returns the signals of that
        window: the tick's contribution to the replay of everything fed so far. */
    method GenerateSignals(tick: MarketDataPoint) returns (signals: seq<Signal>)
      requires Valid()
      requires kind.MeanReversion? ==> lookbackWindow >= 1
      modifies this
      ensures Valid() && ticks == old(ticks) + [tick]
      ensures history == old(history)[tick.symbol := Push(WindowOf(old(history), tick.symbol), tick.price, lookbackWindow)]
      ensures signals == SignalsFor(kind, lookbackWindow, threshold, old(history), tick)
      ensures SignalsAfter(kind, lookbackWindow, threshold, ticks)
              == SignalsAfter(kind, lookbackWindow, threshold, old(ticks)) + signals
    {
      var window := Push(WindowOf(history, tick.symbol), tick.price, lookbackWindow);
      HistoryAfterSnoc(lookbackWindow, ticks, tick);
      SignalsAfterSnoc(kind, lookbackWindow, threshold, ticks, tick);
      history := history[tick.symbol := window];
      ticks := ticks + [tick];
      match kind {
        case MeanReversion =>
          signals := MeanReversionDecision(window, tick, lookbackWindow, threshold);
        case Breakout =>
          signals := BreakoutDecision(window, tick, lookbackWindow, threshold);
      }
    }
  }

  /** The mean-reversion branch of `GenerateSignals`, on the window after the push: no signal
      until the window is full, then SELL when the price is at least the threshold above the
      window mean, BUY when it is at least the threshold below it, and nothing otherwise. */
  method MeanReversionDecision(window: seq<real>, tick: MarketDataPoint, lookbackWindow: nat, threshold: real)
    returns (signals: seq<Signal>)
    requires |window| > 0
    ensures |signals| <= 1
    ensures |signals| == 1 <==>
              |window| >= lookbackWindow
              && (Deviation(window, tick.price) >= threshold || Deviation(window, tick.price) <= -threshold)
    ensures |signals| == 1 ==>
              signals[0] == BuildSignal(tick, if Deviation(window, tick.price) >= threshold then "SELL" else "BUY",
                                        "MeanReversionStrategy", "deviation", Deviation(window, tick.price))
    ensures signals == MeanReversionSignals(window, tick, lookbackWindow, threshold)
  {
    MeanReversionSignalsMeaning(window, tick, lookbackWindow, threshold);
    if |window| < lookbackWindow {
      return [];
    }
    var averagePrice := Analytics.Sum(window) / (|window| as real);
    var deviation := MoveFrom(averagePrice, tick.price);
    if deviation >= threshold {
      return [BuildSignal(tick, "SELL", ClassName(MeanReversion), "deviation", deviation)];
    }
    if deviation <= -threshold {
      return [BuildSignal(tick, "BUY", ClassName(MeanReversion), "deviation", deviation)];
    }
    return [];
  }

  /** The breakout branch of `GenerateSignals`, on the window after the push: no signal until
      the window is full and holds a past price, then BUY when the price is at least the
      threshold above the past maximum, else SELL when it is at least the threshold below the
      past minimum, and nothing otherwise. */
  method BreakoutDecision(window: seq<real>, tick: MarketDataPoint, lookbackWindow: nat, threshold: real)
    returns (signals: seq<Signal>)
    ensures |signals| <= 1
    ensures |signals| == 1 <==>
              |window| >= lookbackWindow && |window| >= 2
              && (MoveFrom(Max(window[..|window| - 1]), tick.price) >= threshold
                  || MoveFrom(Min(window[..|window| - 1]), tick.price) <= -threshold)
    ensures |signals| == 1 ==>
              var past := window[..|window| - 1];
              signals[0] == if MoveFrom(Max(past), tick.price) >= threshold
                            then BuildSignal(tick, "BUY", "BreakoutStrategy", "breakout", MoveFrom(Max(past), tick.price))
                            else BuildSignal(tick, "SELL", "BreakoutStrategy", "breakout", MoveFrom(Min(past), tick.price))
    ensures signals == BreakoutSignals(window, tick, lookbackWindow, threshold)
  {
    BreakoutSignalsMeaning(window, tick, lookbackWindow, threshold);
    if |window| < lookbackWindow {
      return [];
    }
    var pastPrices := if window == [] then [] else window[..|window| - 1];
    if pastPrices == [] {
      return [];
    }
    var maxPrice := Max(pastPrices);
    var minPrice := Min(pastPrices);
    var breakoutUp := MoveFrom(maxPrice, tick.price);
    var breakoutDown := MoveFrom(minPrice, tick.price);
    if breakoutUp >= threshold {
      return [BuildSignal(tick, "BUY", ClassName(Breakout), "breakout", breakoutUp)];
    }
    if breakoutDown <= -threshold {
      return [BuildSignal(tick, "SELL", ClassName(Breakout), "breakout", breakoutDown)];
    }
    return [];
  }

  /** A tick that decides nothing keeps a silent replay silent. */
  lemma QuietStep(kind: Kind, lookbackWindow: nat, threshold: real, ticks: seq<MarketDataPoint>, k: nat)
    requires kind.MeanReversion? ==> lookbackWindow >= 1
    requires k < |ticks|
    requires SignalsAfter(kind, lookbackWindow, threshold, ticks[..k]) == []
    requires SignalsFor(kind, lookbackWindow, threshold, HistoryAfter(lookbackWindow, ticks[..k]), ticks[k]) == []
    ensures SignalsAfter(kind, lookbackWindow, threshold, ticks[..k + 1]) == []
  {
    assert ticks[..k + 1][..k] == ticks[..k];
  }

  /** After a silent replay, the signals are those of its last tick alone. */
  lemma LastStep(kind: Kind, lookbackWindow: nat, threshold: real, ticks: seq<MarketDataPoint>)
    requires kind.MeanReversion? ==> lookbackWindow >= 1
    requires |ticks| > 0
    requires SignalsAfter(kind, lookbackWindow, threshold, ticks[..|ticks| - 1]) == []
    ensures SignalsAfter(kind, lookbackWindow, threshold, ticks)
            == SignalsFor(kind, lookbackWindow, threshold, HistoryAfter(lookbackWindow, ticks[..|ticks| - 1]), ticks[|ticks| - 1])
  {
    var last := SignalsFor(kind, lookbackWindow, threshold, HistoryAfter(lookbackWindow, ticks[..|ticks| - 1]), ticks[|ticks| - 1]);
    assert [] + last == last;
  }

  /** A replay whose ticks each decide nothing emits nothing. */
  lemma {:induction false} SilentPrefix(kind: Kind, lookbackWindow: nat, threshold: real, ticks: seq<MarketDataPoint>, k: nat)
    requires kind.MeanReversion? ==> lookbackWindow >= 1
    requires k <= |ticks|
    requires forall j :: 0 <= j < k ==>
               SignalsFor(kind, lookbackWindow, threshold, HistoryAfter(lookbackWindow, ticks[..j]), ticks[j]) == []
    ensures SignalsAfter(kind, lookbackWindow, threshold, ticks[..k]) == []
  {
    if k == 0 {
      assert ticks[..0] == [];
    } else {
      SilentPrefix(kind, lookbackWindow, threshold, ticks, k - 1);
      QuietStep(kind, lookbackWindow, threshold, ticks, k - 1);
    }
  }

  /** A four-tick replay of which only the last tick decides anything. */
  lemma ReplayOfFour(kind: Kind, lookbackWindow: nat, threshold: real, ticks: seq<MarketDataPoint>)
    requires kind.MeanReversion? ==> lookbackWindow >= 1
    requires |ticks| == 4
    requires SignalsFor(kind, lookbackWindow, threshold, HistoryAfter(lookbackWindow, ticks[..0]), ticks[0]) == []
    requires SignalsFor(kind, lookbackWindow, threshold, HistoryAfter(lookbackWindow, ticks[..1]), ticks[1]) == []
    requires SignalsFor(kind, lookbackWindow, threshold, HistoryAfter(lookbackWindow, ticks[..2]), ticks[2]) == []
    ensures SignalsAfter(kind, lookbackWindow, threshold, ticks)
            == SignalsFor(kind, lookbackWindow, threshold, HistoryAfter(lookbackWindow, ticks[..3]), ticks[3])
  {
    SilentPrefix(kind, lookbackWindow, threshold, ticks, 3);
    LastStep(kind, lookbackWindow, threshold, ticks);
  }

  /** Overwriting the only key of a one-entry map. */
  lemma OverwriteOnlyKey(m: map<string, seq<real>>, key: string, old_value: seq<real>, new_value: seq<real>)
    requires m == map[key := old_value]
    ensures m[key := new_value] == map[key := new_value]
  {
  }

  /** The first tick of a replay opens its symbol's window. */
  lemma FirstTickHistory(lookbackWindow: nat, tick: MarketDataPoint)
    ensures HistoryAfter(lookbackWindow, [tick]) == map[tick.symbol := Push([], tick.price, lookbackWindow)]
  {
    HistoryAfterSnoc(lookbackWindow, [], tick);
    assert [] + [tick] == [tick];
  }

  /** On a replay that has seen only one symbol, the next tick of that symbol pushes onto
      its window. */
  lemma NextTickHistory(lookbackWindow: nat, ticks: seq<MarketDataPoint>, tick: MarketDataPoint, window: seq<real>)
    requires HistoryAfter(lookbackWindow, ticks) == map[tick.symbol := window]
    ensures HistoryAfter(lookbackWindow, ticks + [tick]) == map[tick.symbol := Push(window, tick.price, lookbackWindow)]
  {
    HistoryAfterSnoc(lookbackWindow, ticks, tick);
    assert WindowOf(HistoryAfter(lookbackWindow, ticks), tick.symbol) == window;
    OverwriteOnlyKey(HistoryAfter(lookbackWindow, ticks), tick.symbol, window, Push(window, tick.price, lookbackWindow));
  }

  /** With a window of three, the histories after the first one, two and three ticks of a
      single symbol hold every price seen so far. */
  lemma HistoriesOfThree(ticks: seq<MarketDataPoint>)
    requires |ticks| >= 3 && ticks[1].symbol == ticks[0].symbol && ticks[2].symbol == ticks[0].symbol
    ensures HistoryAfter(3, ticks[..0]) == map[]
    ensures HistoryAfter(3, ticks[..1]) == map[ticks[0].symbol := [ticks[0].price]]
    ensures HistoryAfter(3, ticks[..2]) == map[ticks[0].symbol := [ticks[0].price, ticks[1].price]]
    ensures HistoryAfter(3, ticks[..3]) == map[ticks[0].symbol := [ticks[0].price, ticks[1].price, ticks[2].price]]
  {
    var w1 := [ticks[0].price];
    var w2 := [ticks[0].price, ticks[1].price];
    assert Push([], ticks[0].price, 3) == w1 by { assert [] + [ticks[0].price] == w1; }
    assert Push(w1, ticks[1].price, 3) == w2 by { assert w1 + [ticks[1].price] == w2; }
    var w3 := [ticks[0].price, ticks[1].price, ticks[2].price];
    assert Push(w2, ticks[2].price, 3) == w3 by { assert w2 + [ticks[2].price] == w3; }
    assert ticks[..0] == [];
    assert ticks[..1] == [ticks[0]];
    FirstTickHistory(3, ticks[0]);
    NextTickHistory(3, ticks[..1], ticks[1], w1);
    assert ticks[..1] + [ticks[1]] == ticks[..2];
    NextTickHistory(3, ticks[..2], ticks[2], w2);
    assert ticks[..2] + [ticks[2]] == ticks[..3];
  }

  /** The deviation over a window of three prices. */
  lemma DeviationOfThree(a: real, b: real, c: real, price: real)
    ensures Deviation([a, b, c], price) == MoveFrom((a + b + c) / 3.0, price)
  {
    assert [a, b, c][1..] == [b, c];
    assert [b, c][1..] == [c];
    assert [c][1..] == [];
    assert Analytics.Sum([c]) == c;
    assert Analytics.Sum([b, c]) == b + c;
    assert Analytics.Sum([a, b, c]) == a + b + c;
  }

  /** The extremes of two prices. */
  lemma ExtremesOfTwo(a: real, b: real)
    ensures Max([a, b]) == Analytics.MaxReal(a, b) && Min([a, b]) == Analytics.MinReal(a, b)
  {
    assert [a, b][..1] == [a];
  }

  /** The mean-reversion example's third tick: a window of three 100s has zero deviation. */
  lemma MeanReversionExampleHold(history: map<string, seq<real>>, tick: MarketDataPoint, a: real, b: real)
    requires history == map[tick.symbol := [a, b]] && a == 100.0 && b == 100.0 && tick.price == 100.0
    ensures SignalsFor(MeanReversion, 3, 0.05, history, tick) == []
  {
    assert Push([a, b], tick.price, 3) == [a, b, tick.price];
    DeviationOfThree(a, b, tick.price, tick.price);
  }

  /** The mean-reversion example's last tick: 120 deviates by 0.125 from the mean 320/3. */
  lemma MeanReversionExampleSell(history: map<string, seq<real>>, tick: MarketDataPoint, a: real, b: real, c: real)
    requires history == map[tick.symbol := [a, b, c]] && a == 100.0 && b == 100.0 && c == 100.0 && tick.price == 120.0
    ensures SignalsFor(MeanReversion, 3, 0.05, history, tick)
            == [BuildSignal(tick, "SELL", "MeanReversionStrategy", "deviation", 0.125)]
  {
    assert Push([a, b, c], tick.price, 3) == [b, c, tick.price];
    DeviationOfThree(b, c, tick.price, tick.price);
    assert MoveFrom(320.0 / 3.0, 120.0) == 0.125;
  }

  /** Mean reversion over 3 prices with a 5% threshold, on one symbol at any instants: three
      prices of 100 then one of 120 give exactly one signal, a SELL on the last tick with
      deviation 0.125. */
  lemma MeanReversionExample(ticks: seq<MarketDataPoint>)
    requires |ticks| == 4
    requires forall k :: 0 <= k < 4 ==> ticks[k].symbol == ticks[0].symbol
    requires ticks[0].price == 100.0 && ticks[1].price == 100.0 && ticks[2].price == 100.0 && ticks[3].price == 120.0
    ensures SignalsAfter(MeanReversion, 3, 0.05, ticks)
            == [BuildSignal(ticks[3], "SELL", "MeanReversionStrategy", "deviation", 0.125)]
  {
    HistoriesOfThree(ticks);
    ghost var h0, h1, h2, h3 := HistoryAfter(3, ticks[..0]), HistoryAfter(3, ticks[..1]),
                                HistoryAfter(3, ticks[..2]), HistoryAfter(3, ticks[..3]);
    ghost var p0, p1, p2 := ticks[0].price, ticks[1].price, ticks[2].price;
    assert SignalsFor(MeanReversion, 3, 0.05, h0, ticks[0]) == [] by {
      NoSignalDuringWarmUp(MeanReversion, 3, 0.05, h0, ticks[0]);
    }
    assert SignalsFor(MeanReversion, 3, 0.05, h1, ticks[1]) == [] by {
      NoSignalDuringWarmUp(MeanReversion, 3, 0.05, h1, ticks[1]);
    }
    assert SignalsFor(MeanReversion, 3, 0.05, h2, ticks[2]) == [] by {
      MeanReversionExampleHold(h2, ticks[2], p0, p1);
    }
    assert SignalsFor(MeanReversion, 3, 0.05, h3, ticks[3])
           == [BuildSignal(ticks[3], "SELL", "MeanReversionStrategy", "deviation", 0.125)] by {
      MeanReversionExampleSell(h3, ticks[3], p0, p1, p2);
    }
    ReplayOfFour(MeanReversion, 3, 0.05, ticks);
  }

  /** The breakout example's third tick: 102 is within 5% of the past range 100..101. */
  lemma BreakoutExampleHold(history: map<string, seq<real>>, tick: MarketDataPoint, a: real, b: real)
    requires history == map[tick.symbol := [a, b]] && a == 100.0 && b == 101.0 && tick.price == 102.0
    ensures SignalsFor(Breakout, 3, 0.05, history, tick) == []
  {
    assert Push([a, b], tick.price, 3) == [a, b, tick.price];
    assert [a, b, tick.price][..2] == [a, b];
    ExtremesOfTwo(a, b);
  }

  /** The breakout example's last tick: 110 is 8/102 above the past maximum 102. */
  lemma BreakoutExampleBuy(history: map<string, seq<real>>, tick: MarketDataPoint, a: real, b: real, c: real)
    requires history == map[tick.symbol := [a, b, c]] && a == 100.0 && b == 101.0 && c == 102.0 && tick.price == 110.0
    ensures SignalsFor(Breakout, 3, 0.05, history, tick)
            == [BuildSignal(tick, "BUY", "BreakoutStrategy", "breakout", 8.0 / 102.0)]
  {
    assert Push([a, b, c], tick.price, 3) == [b, c, tick.price];
    assert [b, c, tick.price][..2] == [b, c];
    ExtremesOfTwo(b, c);
  }

  /** Breakout over 3 prices with a 5% threshold, on one symbol at any instants: 100, 101,
      102, 110 give exactly one signal, a BUY on the last tick (110 is 8/102 above 102). */
  lemma BreakoutExample(ticks: seq<MarketDataPoint>)
    requires |ticks| == 4
    requires forall k :: 0 <= k < 4 ==> ticks[k].symbol == ticks[0].symbol
    requires ticks[0].price == 100.0 && ticks[1].price == 101.0 && ticks[2].price == 102.0 && ticks[3].price == 110.0
    ensures SignalsAfter(Breakout, 3, 0.05, ticks)
            == [BuildSignal(ticks[3], "BUY", "BreakoutStrategy", "breakout", 8.0 / 102.0)]
  {
    HistoriesOfThree(ticks);
    ghost var h0, h1, h2, h3 := HistoryAfter(3, ticks[..0]), HistoryAfter(3, ticks[..1]),
                                HistoryAfter(3, ticks[..2]), HistoryAfter(3, ticks[..3]);
    ghost var p0, p1, p2 := ticks[0].price, ticks[1].price, ticks[2].price;
    assert SignalsFor(Breakout, 3, 0.05, h0, ticks[0]) == [] by {
      NoSignalDuringWarmUp(Breakout, 3, 0.05, h0, ticks[0]);
    }
    assert SignalsFor(Breakout, 3, 0.05, h1, ticks[1]) == [] by {
      NoSignalDuringWarmUp(Breakout, 3, 0.05, h1, ticks[1]);
    }
    assert SignalsFor(Breakout, 3, 0.05, h2, ticks[2]) == [] by {
      BreakoutExampleHold(h2, ticks[2], p0, p1);
    }
    assert SignalsFor(Breakout, 3, 0.05, h3, ticks[3])
           == [BuildSignal(ticks[3], "BUY", "BreakoutStrategy", "breakout", 8.0 / 102.0)] by {
      BreakoutExampleBuy(h3, ticks[3], p0, p1, p2);
    }
    ReplayOfFour(Breakout, 3, 0.05, ticks);
  }
}
