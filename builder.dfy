/** The fluent builder of portfolio trees, and its construction from a nested dictionary. */
module Builder {
  import opened Wrappers
  import opened Models
  import opened Lists

  // ------------------------------------------------------------------ drafts

  /** What a builder holds: its name, its owner, the recorded position entries and the
      named sub-builders, each as it stood when it was added. */
  datatype Draft = Draft(name: string, owner: Option<string>, positions: seq<(string, real, real)>,
                         subPortfolios: seq<(string, Draft)>)

  /** The positions recorded by `add_position`, as tree nodes in the same order. */
  function PositionNodes(entries: seq<(string, real, real)>): (nodes: seq<Component>)
    ensures |nodes| == |entries|
    ensures forall i :: 0 <= i < |entries| ==> nodes[i] == Position(entries[i].0, entries[i].1, entries[i].2)
  {
    if entries == [] then []
    else PositionNodes(entries[..|entries| - 1]) + [Position(entries[|entries| - 1].0, entries[|entries| - 1].1, entries[|entries| - 1].2)]
  }

  /** The children of the portfolio `build` makes from a draft: its positions, then one group
      per sub-builder. */
  function Children(d: Draft): (children: seq<Component>)
    decreases d, 1
    ensures |children| == |d.positions| + |d.subPortfolios|
  {
    PositionNodes(d.positions) + SubGroups(d.subPortfolios)
  }

  /** One group per sub-builder, named as it was added, without owner, holding the children
      of the sub-builder's own portfolio. */
  function SubGroups(subs: seq<(string, Draft)>): (groups: seq<Component>)
    decreases subs, 0
    ensures |groups| == |subs|
  {
    if subs == [] then [] else SubGroups(subs[..|subs| - 1]) + [SubGroup(subs[|subs| - 1])]
  }

  /** The group for one named sub-builder. */
  function SubGroup(sub: (string, Draft)): (group: Component)
    decreases sub, 2
  {
    Group(sub.0, None, Children(sub.1))
  }

  lemma {:induction false} SubGroupsAt(subs: seq<(string, Draft)>, j: nat)
    requires j < |subs|
    ensures SubGroups(subs)[j] == Group(subs[j].0, None, Children(subs[j].1))
    decreases |subs|
  {
    if j < |subs| - 1 {
      SubGroupsAt(subs[..|subs| - 1], j);
    }
  }

  /** The order `build` assembles a portfolio in: the positions as added, then one group per
      sub-builder in the order added, each named by its `add_subportfolio` name, without
      owner (the sub-portfolio's own owner is dropped), holding the sub-portfolio's children. */
  lemma ChildrenShape(d: Draft)
    ensures Children(d)[..|d.positions|] == PositionNodes(d.positions)
    ensures forall j :: 0 <= j < |d.subPortfolios| ==>
      Children(d)[|d.positions| + j] == Group(d.subPortfolios[j].0, None, Children(d.subPortfolios[j].1))
  {
    var c := Children(d);
    assert c[..|d.positions|] == PositionNodes(d.positions);
    forall j | 0 <= j < |d.subPortfolios|
      ensures c[|d.positions| + j] == Group(d.subPortfolios[j].0, None, Children(d.subPortfolios[j].1))
    {
      SubGroupsAt(d.subPortfolios, j);
    }
  }

  /** The tree a draft builds holds exactly its own positions and the positions of its
      sub-builders, in order. */
  lemma BuiltPositions(d: Draft)
    ensures PositionsOf(Children(d)) == PositionNodes(d.positions) + SubPositions(d.subPortfolios)
  {
    PositionsOfConcat(PositionNodes(d.positions), SubGroups(d.subPortfolios));
    PositionNodesArePositions(d.positions);
    SubGroupPositions(d.subPortfolios);
  }

  /** The positions of each sub-builder's portfolio, one sub-builder after the other. */
  function SubPositions(subs: seq<(string, Draft)>): seq<Component>
  {
    if subs == [] then [] else SubPositions(subs[..|subs| - 1]) + Positions(SubGroup(subs[|subs| - 1]))
  }

  lemma {:induction false} SubGroupPositions(subs: seq<(string, Draft)>)
    ensures PositionsOf(SubGroups(subs)) == SubPositions(subs)
  {
    if subs != [] {
      var init, last := subs[..|subs| - 1], subs[|subs| - 1];
      SubGroupPositions(init);
      assert SubGroups(subs)[..|subs| - 1] == SubGroups(init);
    }
  }

  lemma {:induction false} PositionNodesArePositions(entries: seq<(string, real, real)>)
    ensures PositionsOf(PositionNodes(entries)) == PositionNodes(entries)
  {
    if entries != [] {
      var init := entries[..|entries| - 1];
      PositionNodesArePositions(init);
      assert PositionNodes(entries)[..|entries| - 1] == PositionNodes(init);
    }
  }

  lemma {:induction false} PositionsOfConcat(a: seq<Component>, b: seq<Component>)
    ensures PositionsOf(a + b) == PositionsOf(a) + PositionsOf(b)
    decreases |b|
  {
    if b == [] {
      assert a + b == a;
    } else {
      assert (a + b)[..|a + b| - 1] == a + b[..|b| - 1];
      PositionsOfConcat(a, b[..|b| - 1]);
      AppendAssoc(PositionsOf(a), PositionsOf(b[..|b| - 1]), Positions(b[|b| - 1]));
    }
  }

  // ----------------------------------------------------------------- builder

  class PortfolioBuilder {
    const name: string
    var owner: Option<string>
    var positions: seq<(string, real, real)>
    var subBuilders: seq<(string, Draft)>

    /** The builder as a draft. */
    function State(): (d: Draft)
      reads this
      ensures d.name == name && d.owner == owner && d.positions == positions && d.subPortfolios == subBuilders
    {
      Draft(name, owner, positions, subBuilders)
    }

    constructor (name: string)
      ensures this.name == name && owner == None && positions == [] && subBuilders == []
    {
      this.name := name;
      owner := None;
      positions := [];
      subBuilders := [];
    }

    /** `set_owner`: returns the same builder. */
    method SetOwner(name: string) returns (self: PortfolioBuilder)
      modifies this
      ensures self == this
      ensures owner == Some(name) && positions == old(positions) && subBuilders == old(subBuilders)
    {
      owner := Some(name);
      self := this;
    }

    /** `add_position`: records the entry after the earlier ones and returns the same builder. */
    method AddPosition(symbol: string, quantity: real, price: real) returns (self: PortfolioBuilder)
      modifies this
      ensures self == this
      ensures positions == old(positions) + [(symbol, quantity, price)]
      ensures owner == old(owner) && subBuilders == old(subBuilders)
    {
      positions := positions + [(symbol, quantity, price)];
      self := this;
    }

    /** `add_subportfolio`: records the named sub-builder after the earlier ones and returns
        the same builder. */
    method AddSubportfolio(name: string, builder: PortfolioBuilder) returns (self: PortfolioBuilder)
      modifies this
      ensures self == this
      ensures subBuilders == old(subBuilders) + [(name, old(builder.State()))]
      ensures owner == old(owner) && positions == old(positions)
    {
      subBuilders := subBuilders + [(name, builder.State())];
      self := this;
    }

    /** `build`: a new portfolio with the builder's name and owner whose children are
        `Children(State())`. Nothing that exists already is changed. */
    method Build() returns (portfolio: PortfolioGroup)
      ensures fresh(portfolio)
      ensures portfolio.name == name && portfolio.owner == owner && portfolio.components == Children(State())
    {
      portfolio := BuildDraft(State());
    }

    /** `from_dict`: None when a position entry lacks its symbol (the source raises KeyError);
        otherwise a new portfolio named by `name` or "Portfolio", owned by a present
        non-empty `owner`, whose children are `Children(DraftOf(data))`. */
    static method FromDict(data: PortfolioData) returns (result: Option<PortfolioGroup>)
      ensures result.Some? <==> AllSymbolsPresent(data)
      ensures result.Some? ==>
        && fresh(result.value)
        && result.value.name == OrElse(data.name, "Portfolio")
        && result.value.owner == OwnerOf(data)
        && result.value.components == Children(DraftOf(data))
    {
      var builder := new PortfolioBuilder(OrElse(data.name, "Portfolio"));
      if data.owner.Some? && data.owner.value != "" {
        var _ := builder.SetOwner(data.owner.value);
      }
      var ok := AddPositions(builder, data.positions);
      if !ok {
        return None;
      }
      for j := 0 to |data.subPortfolios|
        invariant builder.name == OrElse(data.name, "Portfolio") && builder.owner == OwnerOf(data)
        invariant builder.positions == Entries(data.positions)
        invariant SubsHaveSymbols(data.subPortfolios[..j])
        invariant builder.subBuilders == SubDrafts(data.subPortfolios[..j])
      {
        ok := AddSubPortfolio(builder, data.subPortfolios[j]);
        if !ok {
          assert !HasSymbols(data.subPortfolios[j].positions);
          return None;
        }
        SubDraftsSnoc(data.subPortfolios, j);
      }
      assert data.subPortfolios[..|data.subPortfolios|] == data.subPortfolios;
      var portfolio := builder.Build();
      return Some(portfolio);
    }

    /** One turn of `from_dict`'s sub-portfolio loop: a new builder named by `name` or
        "SubPortfolio", given the entry's positions and added under its own name; false
        when a position entry lacks its symbol. */
    static method AddSubPortfolio(builder: PortfolioBuilder, sub: PortfolioData) returns (ok: bool)
      modifies builder
      ensures ok <==> HasSymbols(sub.positions)
      ensures builder.owner == old(builder.owner) && builder.positions == old(builder.positions)
      ensures ok ==> builder.subBuilders == old(builder.subBuilders) + SubDrafts([sub])
    {
      var subBuilder := new PortfolioBuilder(OrElse(sub.name, "SubPortfolio"));
      ok := AddPositions(subBuilder, sub.positions);
      if ok {
        assert subBuilder.State() == Draft(subBuilder.name, None, Entries(sub.positions), []);
        var _ := builder.AddSubportfolio(subBuilder.name, subBuilder);
        assert [sub][..0] == [];
        assert SubDrafts([sub]) == [(subBuilder.name, Draft(subBuilder.name, None, Entries(sub.positions), []))];
      }
    }

    /** The positions loop of `from_dict`: false when an entry lacks its symbol. */
    static method AddPositions(builder: PortfolioBuilder, entries: seq<PositionData>) returns (ok: bool)
      modifies builder
      ensures ok <==> HasSymbols(entries)
      ensures builder.owner == old(builder.owner) && builder.subBuilders == old(builder.subBuilders)
      ensures ok ==> builder.positions == old(builder.positions) + Entries(entries)
    {
      for i := 0 to |entries|
        invariant HasSymbols(entries[..i])
        invariant builder.owner == old(builder.owner) && builder.subBuilders == old(builder.subBuilders)
        invariant builder.positions == old(builder.positions) + Entries(entries[..i])
      {
        var entry := entries[i];
        if entry.symbol.None? {
          return false;
        }
        var _ := builder.AddPosition(entry.symbol.value, AmountOr(entry.quantity), AmountOr(entry.price));
        assert entries[..i + 1] == entries[..i] + [entry];
      }
      assert entries[..|entries|] == entries;
      return true;
    }
  }

  /** `build` on a draft: a new portfolio, then a position per entry, then for each
      sub-builder the group holding the children of its own portfolio. */
  method BuildDraft(d: Draft) returns (portfolio: PortfolioGroup)
    decreases d, 1
    ensures fresh(portfolio)
    ensures portfolio.name == d.name && portfolio.owner == d.owner && portfolio.components == Children(d)
  {
    portfolio := new PortfolioGroup.Portfolio(d.name, d.owner);
    for i := 0 to |d.positions|
      invariant portfolio.components == PositionNodes(d.positions[..i])
    {
      var (symbol, quantity, price) := d.positions[i];
      assert d.positions[..i + 1][..i] == d.positions[..i];
      portfolio.Add(Position(symbol, quantity, price));
    }
    assert d.positions[..|d.positions|] == d.positions;
    for j := 0 to |d.subPortfolios|
      invariant portfolio.components == PositionNodes(d.positions) + SubGroups(d.subPortfolios[..j])
    {
      var (subName, sub) := d.subPortfolios[j];
      assert d.subPortfolios[..j + 1][..j] == d.subPortfolios[..j];
      var subGroup := BuildSubGroup(subName, sub);
      AppendAssoc(PositionNodes(d.positions), SubGroups(d.subPortfolios[..j]), [subGroup]);
      portfolio.Add(subGroup);
    }
    assert d.subPortfolios[..|d.subPortfolios|] == d.subPortfolios;
  }

  /** One turn of `build`'s second loop: builds the sub-builder's portfolio and copies its
      children, in order, into a new group of the given name. */
  method BuildSubGroup(name: string, sub: Draft) returns (subGroup: Component)
    decreases sub, 2
    ensures subGroup == Group(name, None, Children(sub))
  {
    var subPortfolio := BuildDraft(sub);
    var group := new PortfolioGroup(name);
    var children := subPortfolio.components;
    for k := 0 to |children|
      invariant group.components == children[..k]
    {
      group.Add(children[k]);
    }
    assert children[..|children|] == children;
    subGroup := group.AsComponent();
  }

  // ------------------------------------------------------------ dictionaries

  /** A position entry of the dictionary form; a missing key is None. */
  datatype PositionData = PositionData(symbol: Option<string>, quantity: Option<real>, price: Option<real>)

  /** The dictionary form of a portfolio. A missing `name` or `owner` is None; a missing
      `positions` or `sub_portfolios` list is empty. Sub-portfolios have the same form. */
  datatype PortfolioData = PortfolioData(name: Option<string>, owner: Option<string>,
                                         positions: seq<PositionData>, subPortfolios: seq<PortfolioData>)

  function OrElse<T>(o: Option<T>, default: T): T {
    if o.Some? then o.value else default
  }

  /** `float(position.get(key, 0))`. */
  function AmountOr(o: Option<real>): real {
    OrElse(o, 0.0)
  }

  predicate HasSymbols(entries: seq<PositionData>) {
    forall i :: 0 <= i < |entries| ==> entries[i].symbol.Some?
  }

  /** Every position entry, at both levels `from_dict` reads, has a symbol. */
  predicate AllSymbolsPresent(data: PortfolioData) {
    && HasSymbols(data.positions)
    && SubsHaveSymbols(data.subPortfolios)
  }

  predicate SubsHaveSymbols(subs: seq<PortfolioData>) {
    forall j :: 0 <= j < |subs| ==> HasSymbols(subs[j].positions)
  }

  /** The entries `add_position` receives for a list of position dictionaries: the symbol,
      and the quantity and price or 0.0 where they are missing. */
  function Entries(positions: seq<PositionData>): (entries: seq<(string, real, real)>)
    requires HasSymbols(positions)
    ensures |entries| == |positions|
    ensures forall i :: 0 <= i < |positions| ==>
      entries[i] == (positions[i].symbol.value, AmountOr(positions[i].quantity), AmountOr(positions[i].price))
  {
    if positions == [] then []
    else
      var last := positions[|positions| - 1];
      Entries(positions[..|positions| - 1]) + [(last.symbol.value, AmountOr(last.quantity), AmountOr(last.price))]
  }

  /** The owner `from_dict` sets: only a present, non-empty one. */
  function OwnerOf(data: PortfolioData): (owner: Option<string>)
    ensures owner.Some? <==> data.owner.Some? && data.owner.value != ""
    ensures owner.Some? ==> owner == data.owner
  {
    if data.owner.Some? && data.owner.value != "" then data.owner else None
  }

  /** The sub-builders `from_dict` adds for the sub-portfolio dictionaries: each named by its
      `name` or "SubPortfolio", with its positions and nothing else. */
  function SubDrafts(subs: seq<PortfolioData>): (drafts: seq<(string, Draft)>)
    requires SubsHaveSymbols(subs)
    ensures |drafts| == |subs|
  {
    if subs == [] then []
    else
      var last := subs[|subs| - 1];
      var name := OrElse(last.name, "SubPortfolio");
      SubDrafts(subs[..|subs| - 1]) + [(name, Draft(name, None, Entries(last.positions), []))]
  }

  lemma {:induction false} SubDraftsAt(subs: seq<PortfolioData>, j: nat)
    requires SubsHaveSymbols(subs)
    requires j < |subs|
    ensures SubDrafts(subs)[j]
            == (OrElse(subs[j].name, "SubPortfolio"), Draft(OrElse(subs[j].name, "SubPortfolio"), None, Entries(subs[j].positions), []))
    decreases |subs|
  {
    if j < |subs| - 1 {
      SubDraftsAt(subs[..|subs| - 1], j);
    }
  }

  /** One more sub-portfolio dictionary adds its own draft after the earlier ones. */
  lemma SubDraftsSnoc(subs: seq<PortfolioData>, j: nat)
    requires j < |subs| && SubsHaveSymbols(subs[..j]) && HasSymbols(subs[j].positions)
    ensures SubsHaveSymbols(subs[..j + 1])
    ensures SubDrafts(subs[..j + 1]) == SubDrafts(subs[..j]) + SubDrafts([subs[j]])
  {
    var prefix := subs[..j + 1];
    assert prefix[..j] == subs[..j] && prefix[j] == subs[j];
    assert [subs[j]][..0] == [];
  }

  /** The builder `from_dict` fills in for a dictionary whose positions all have symbols. */
  function DraftOf(data: PortfolioData): (d: Draft)
    requires AllSymbolsPresent(data)
  {
    Draft(OrElse(data.name, "Portfolio"), OwnerOf(data), Entries(data.positions), SubDrafts(data.subPortfolios))
  }

  /** The portfolio `from_dict` builds: the positions with their defaults, then one group per
      sub-portfolio, named by its `name` or "SubPortfolio", holding that sub-portfolio's
      positions only. */
  lemma FromDictShape(data: PortfolioData)
    requires AllSymbolsPresent(data)
    ensures |Children(DraftOf(data))| == |data.positions| + |data.subPortfolios|
    ensures forall i :: 0 <= i < |data.positions| ==>
      Children(DraftOf(data))[i]
      == Position(data.positions[i].symbol.value, AmountOr(data.positions[i].quantity), AmountOr(data.positions[i].price))
    ensures forall j :: 0 <= j < |data.subPortfolios| ==>
      Children(DraftOf(data))[|data.positions| + j]
      == Group(OrElse(data.subPortfolios[j].name, "SubPortfolio"), None, PositionNodes(Entries(data.subPortfolios[j].positions)))
  {
    forall i | 0 <= i < |data.positions|
      ensures Children(DraftOf(data))[i]
              == Position(data.positions[i].symbol.value, AmountOr(data.positions[i].quantity), AmountOr(data.positions[i].price))
    {
      FromDictPositionAt(data, i);
    }
    forall j | 0 <= j < |data.subPortfolios|
      ensures Children(DraftOf(data))[|data.positions| + j]
              == Group(OrElse(data.subPortfolios[j].name, "SubPortfolio"), None, PositionNodes(Entries(data.subPortfolios[j].positions)))
    {
      FromDictSubGroupAt(data, j);
    }
  }

  lemma FromDictPositionAt(data: PortfolioData, i: nat)
    requires AllSymbolsPresent(data) && i < |data.positions|
    ensures Children(DraftOf(data))[i]
            == Position(data.positions[i].symbol.value, AmountOr(data.positions[i].quantity), AmountOr(data.positions[i].price))
  {
    var d := DraftOf(data);
    assert Children(d)[i] == PositionNodes(d.positions)[i];
  }

  lemma FromDictSubGroupAt(data: PortfolioData, j: nat)
    requires AllSymbolsPresent(data) && j < |data.subPortfolios|
    ensures Children(DraftOf(data))[|data.positions| + j]
            == Group(OrElse(data.subPortfolios[j].name, "SubPortfolio"), None, PositionNodes(Entries(data.subPortfolios[j].positions)))
  {
    var d := DraftOf(data);
    SubGroupsAt(d.subPortfolios, j);
    assert Children(d)[|d.positions| + j] == SubGroups(d.subPortfolios)[j];
    SubDraftsAt(data.subPortfolios, j);
    var sub := d.subPortfolios[j].1;
    assert Children(sub) == PositionNodes(sub.positions) + SubGroups([]);
  }

  /** Only one level of sub-portfolios is read: the owners and the nested sub-portfolios of
      the sub-portfolios make no difference to the outcome. */
  lemma NestedDataIgnored(data: PortfolioData, other: PortfolioData)
    requires other.name == data.name && other.owner == data.owner && other.positions == data.positions
    requires |other.subPortfolios| == |data.subPortfolios|
    requires forall j :: 0 <= j < |data.subPortfolios| ==>
      other.subPortfolios[j].name == data.subPortfolios[j].name && other.subPortfolios[j].positions == data.subPortfolios[j].positions
    ensures AllSymbolsPresent(other) <==> AllSymbolsPresent(data)
    ensures AllSymbolsPresent(data) ==> DraftOf(other) == DraftOf(data)
  {
    if AllSymbolsPresent(data) {
      assert AllSymbolsPresent(other);
      forall j | 0 <= j < |data.subPortfolios|
        ensures SubDrafts(other.subPortfolios)[j] == SubDrafts(data.subPortfolios)[j]
      {
        SubDraftsAt(other.subPortfolios, j);
        SubDraftsAt(data.subPortfolios, j);
      }
      assert SubDrafts(other.subPortfolios) == SubDrafts(data.subPortfolios);
    }
  }
}
