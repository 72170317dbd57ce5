/** The domain objects: instruments with their metric decorators, and the portfolio
    composite of positions and nested groups. */
module Models {
  import opened Wrappers
  import opened DataLoader
  import opened Analytics

  // ------------------------------------------------------------ instruments

  /** What a decorator adds to the metrics of the instrument it wraps. */
  datatype Layer =
    | Plain
    | VolatilityLayer(priceHistory: seq<real>)
    | BetaLayer(assetPrices: seq<real>, benchmarkPrices: seq<real>)
    | DrawdownLayer(priceHistory: seq<real>)

  /** An instrument: one of the three concrete kinds, or a decorator holding its own copies of
      the wrapped instrument's symbol, price and sector. */
  datatype Instrument =
    | Stock(symbol: string, price: real, sector: Option<string>, issuer: Option<string>)
    | Bond(symbol: string, price: real, sector: Option<string>, issuer: Option<string>, maturity: Option<Timestamp>)
    | ETF(symbol: string, price: real, sector: Option<string>, issuer: Option<string>)
    | Decorator(symbol: string, price: real, sector: Option<string>, inner: Instrument, layer: Layer)

  /** A metric value. The volatility is a standard deviation, kept symbolic. */
  datatype Metric = Number(value: real) | Deviation(deviation: StdDev)

  /** Wraps an instrument in a decorator, copying its symbol, price and sector. */
  function Decorate(instrument: Instrument, layer: Layer): (d: Instrument)
    ensures d.Decorator? && d.inner == instrument && d.layer == layer
    ensures d.symbol == instrument.symbol && d.price == instrument.price && d.sector == instrument.sector
  {
    Decorator(instrument.symbol, instrument.price, instrument.sector, instrument, layer)
  }

  /** Every decorator in the chain holds the copies it was built with. */
  ghost predicate WellFormed(i: Instrument) {
    match i
    case Decorator(symbol, price, sector, inner, _) =>
      symbol == inner.symbol && price == inner.price && sector == inner.sector && WellFormed(inner)
    case _ => true
  }

  lemma DecorateWellFormed(instrument: Instrument, layer: Layer)
    requires WellFormed(instrument)
    ensures WellFormed(Decorate(instrument, layer))
  {
  }

  /** The concrete instrument at the bottom of a decorator chain. */
  function Core(i: Instrument): (c: Instrument)
    ensures !c.Decorator?
  {
    if i.Decorator? then Core(i.inner) else i
  }

  /** The decorators of a chain, outermost first. */
  function Layers(i: Instrument): seq<Layer> {
    if i.Decorator? then [i.layer] + Layers(i.inner) else []
  }

  /** A decorator's copies agree with the concrete instrument at the bottom of its chain. */
  lemma {:induction false} CopiesAgreeWithCore(i: Instrument)
    requires WellFormed(i)
    ensures i.symbol == Core(i).symbol && i.price == Core(i).price && i.sector == Core(i).sector
  {
    if i.Decorator? {
      CopiesAgreeWithCore(i.inner);
    }
  }

  /** The issuer, which a decorator forwards to the instrument it wraps. */
  function Issuer(i: Instrument): Option<string> {
    if i.Decorator? then Issuer(i.inner) else i.issuer
  }

  /** The maturity, which only bonds have (None stands for the missing attribute);
      a decorator forwards it to the instrument it wraps. */
  function Maturity(i: Instrument): Option<Option<Timestamp>> {
    match i
    case Bond(_, _, _, _, maturity) => Some(maturity)
    case Decorator(_, _, _, inner, _) => Maturity(inner)
    case _ => None
  }

  /** Forwarding ends at the bottom of the chain: a decorated instrument has the issuer and
      maturity of the concrete instrument it decorates. */
  lemma {:induction false} ForwardingReachesCore(i: Instrument)
    ensures Issuer(i) == Core(i).issuer
    ensures Maturity(i) == if Core(i).Bond? then Some(Core(i).maturity) else None
  {
    if i.Decorator? {
      ForwardingReachesCore(i.inner);
    }
  }

  /** The key a decorator sets, or None for the plain decorator. */
  function KeyOf(layer: Layer): Option<string> {
    match layer
    case Plain => None
    case VolatilityLayer(_) => Some("volatility")
    case BetaLayer(_, _) => Some("beta")
    case DrawdownLayer(_) => Some("max_drawdown")
  }

  /** The value a decorator puts under its key. */
  function MetricOf(layer: Layer): Metric {
    match layer
    case Plain => Number(0.0)
    case VolatilityLayer(history) => Deviation(CalculateVolatility(history))
    case BetaLayer(asset, benchmark) => Number(CalculateBeta(asset, benchmark))
    case DrawdownLayer(history) => Number(MaxDrawdown(history))
  }

  /** `get_metrics`: the concrete instrument's price, and then each decorator from the inside
      out adds its own key to the wrapped instrument's metrics. */
  function GetMetrics(i: Instrument): map<string, Metric> {
    if !i.Decorator? then map["price" := Number(i.price)]
    else
      var metrics := GetMetrics(i.inner);
      match KeyOf(i.layer)
      case None => metrics
      case Some(key) => metrics[key := MetricOf(i.layer)]
  }

  /** A concrete instrument's metrics are exactly its price. */
  lemma BaseMetrics(i: Instrument)
    requires !i.Decorator?
    ensures GetMetrics(i).Keys == {"price"} && GetMetrics(i)["price"] == Number(i.price)
  {
  }

  /** One decorator: the plain one passes the wrapped metrics through unchanged; the others add
      their own key with their own calculation and leave every other key as it was. */
  lemma DecoratorMetrics(instrument: Instrument, layer: Layer)
    ensures layer.Plain? ==> GetMetrics(Decorate(instrument, layer)) == GetMetrics(instrument)
    ensures !layer.Plain? ==>
      && GetMetrics(Decorate(instrument, layer)).Keys == GetMetrics(instrument).Keys + {KeyOf(layer).value}
      && GetMetrics(Decorate(instrument, layer))[KeyOf(layer).value] == MetricOf(layer)
      && forall key :: key in GetMetrics(instrument) && key != KeyOf(layer).value ==>
           GetMetrics(Decorate(instrument, layer))[key] == GetMetrics(instrument)[key]
  {
  }

  /** The keys of a decorated instrument: "price" and the key of every decorator in the chain. */
  lemma {:induction false} MetricKeys(i: Instrument)
    ensures GetMetrics(i).Keys == {"price"} + set l | l in Layers(i) && KeyOf(l).Some? :: KeyOf(l).value
  {
    if i.Decorator? {
      MetricKeys(i.inner);
      assert Layers(i) == [i.layer] + Layers(i.inner);
    }
  }

  /** No decorator overwrites the price: it is always the concrete instrument's. */
  lemma {:induction false} PriceMetricKept(i: Instrument)
    ensures "price" in GetMetrics(i) && GetMetrics(i)["price"] == Number(Core(i).price)
  {
    if i.Decorator? {
      PriceMetricKept(i.inner);
    }
  }

  /** Stacking the volatility, beta and drawdown decorators on an instrument yields all three
      metrics, and the volatility is non-negative. */
  lemma StackedDecorators(base: Instrument, history: seq<real>, benchmark: seq<real>)
    requires !base.Decorator?
    ensures var stacked := Decorate(Decorate(Decorate(base, VolatilityLayer(history)), BetaLayer(history, benchmark)), DrawdownLayer(history));
      && GetMetrics(stacked).Keys == {"price", "volatility", "beta", "max_drawdown"}
      && GetMetrics(stacked)["volatility"] == Deviation(CalculateVolatility(history))
      && GetMetrics(stacked)["volatility"].deviation.variance >= 0.0
      && GetMetrics(stacked)["beta"] == Number(CalculateBeta(history, benchmark))
      && GetMetrics(stacked)["max_drawdown"] == Number(MaxDrawdown(history))
  {
    var v := Decorate(base, VolatilityLayer(history));
    var b := Decorate(v, BetaLayer(history, benchmark));
    var d := Decorate(b, DrawdownLayer(history));
    DecoratorMetrics(base, VolatilityLayer(history));
    DecoratorMetrics(v, BetaLayer(history, benchmark));
    DecoratorMetrics(b, DrawdownLayer(history));
  }

  // -------------------------------------------------------------- portfolios

  /** A node of the portfolio tree: a position, or a group of components in the order added.
      A group's owner is that of a `Portfolio`; plain groups have none. */
  datatype Component =
    | Position(symbol: string, quantity: real, price: real)
    | Group(name: string, owner: Option<string>, components: seq<Component>)

  /** `get_value`: quantity times price for a position, the sum of the children for a group. */
  function Value(c: Component): real
    decreases c, 1
  {
    match c
    case Position(_, quantity, price) => quantity * price
    case Group(_, _, components) => ValueOf(components)
  }

  /** The sum of the values of a list of components, added from the left. */
  function ValueOf(cs: seq<Component>): real
    decreases cs, 0
  {
    if cs == [] then 0.0 else ValueOf(cs[..|cs| - 1]) + Value(cs[|cs| - 1])
  }

  /** `get_positions`: a position is its own list; a group lists its children's positions
      one after the other in the order the children were added. Only positions come out. */
  function Positions(c: Component): (positions: seq<Component>)
    decreases c, 1
    ensures forall i :: 0 <= i < |positions| ==> positions[i].Position?
  {
    match c
    case Position(_, _, _) => [c]
    case Group(_, _, components) => PositionsOf(components)
  }

  function PositionsOf(cs: seq<Component>): (positions: seq<Component>)
    decreases cs, 0
    ensures forall i :: 0 <= i < |positions| ==> positions[i].Position?
  {
    if cs == [] then [] else PositionsOf(cs[..|cs| - 1]) + Positions(cs[|cs| - 1])
  }

  lemma {:induction false} ValueOfConcat(a: seq<Component>, b: seq<Component>)
    ensures ValueOf(a + b) == ValueOf(a) + ValueOf(b)
    decreases |b|
  {
    if b != [] {
      assert (a + b)[..|a + b| - 1] == a + b[..|b| - 1];
      ValueOfConcat(a, b[..|b| - 1]);
    } else {
      assert a + b == a;
    }
  }

  /** A tree is worth the sum of the values of its positions. */
  lemma {:induction false} ValueIsSumOfPositions(c: Component)
    ensures Value(c) == ValueOf(Positions(c))
    decreases c, 1
  {
    match c
    case Position(_, _, _) =>
      assert ValueOf([c]) == ValueOf([]) + Value(c);
    case Group(_, _, components) =>
      ValuesAreSumsOfPositions(components);
  }

  lemma {:induction false} ValuesAreSumsOfPositions(cs: seq<Component>)
    ensures ValueOf(cs) == ValueOf(PositionsOf(cs))
    decreases cs, 0
  {
    if cs != [] {
      var last := cs[|cs| - 1];
      ValuesAreSumsOfPositions(cs[..|cs| - 1]);
      ValueIsSumOfPositions(last);
      ValueOfConcat(PositionsOf(cs[..|cs| - 1]), Positions(last));
    }
  }

  /** `PortfolioGroup`, and `Portfolio`, which only adds an owner. A child added to a group is
      held as the value it has when added. */
  class PortfolioGroup {
    const name: string
    const owner: Option<string>
    var components: seq<Component>

    /** A plain sub-group, without owner. */
    constructor (name: string)
      ensures this.name == name && owner == None && components == []
    {
      this.name := name;
      owner := None;
      components := [];
    }

    /** A portfolio with an owner. */
    constructor Portfolio(name: string, owner: Option<string>)
      ensures this.name == name && this.owner == owner && components == []
    {
      this.name := name;
      this.owner := owner;
      components := [];
    }

    /** The group as a node of a portfolio tree. */
    function AsComponent(): (c: Component)
      reads this
      ensures c.Group? && c.name == name && c.owner == owner && c.components == components
    {
      Group(name, owner, components)
    }

    /** `add`: appends a component. */
    method Add(component: Component)
      modifies this
      ensures components == old(components) + [component]
    {
      components := components + [component];
    }

    /** `get_value`: the sum of the children's values, which is also the sum of the values of
        all the positions in the tree. */
    function GetValue(): (v: real)
      reads this
      ensures v == Value(AsComponent())
      ensures v == ValueOf(PositionsOf(components))
    {
      ValuesAreSumsOfPositions(components);
      ValueOf(components)
    }

    /** `get_positions`: extends a fresh list with each child's positions in turn. */
    method GetPositions() returns (positions: seq<Component>)
      ensures positions == Positions(AsComponent())
      ensures forall i :: 0 <= i < |positions| ==> positions[i].Position?
    {
      positions := [];
      for k := 0 to |components|
        invariant positions == PositionsOf(components[..k])
      {
        assert components[..k + 1][..k] == components[..k];
        positions := positions + Positions(components[k]);
      }
      assert components[..|components|] == components;
    }
  }
}
