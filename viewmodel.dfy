/** The view model: the data behind the flow diagram (edge lists) and behind the
    impact bar chart (two bar series), and the recomputation on every change. */
module ViewModel {
  import opened Data
  import opened Impacts
  import opened Balancer
  import opened Redistribution

  /** The flows whose key string starts with `category`; all flows for the
      aggregate view. */
  function FilterFlows(category: string, flows: Flows): (r: Flows)
    ensures forall k :: k in r ==> k in flows && r[k] == flows[k]
    ensures category == AggregateName ==> r == flows
    ensures category != AggregateName ==> forall k :: k in r <==> k in flows && category <= KeyName(k)
  {
    if category == AggregateName then flows
    else map k | k in flows && category <= KeyName(k) :: flows[k]
  }

  /** Filtering by a dropdown value keeps everything for the aggregate view and
      exactly the chosen sector's flows otherwise. */
  lemma FilterFlowsSubset(sub: Subset, flows: Flows)
    ensures sub == MostRecentData ==> FilterFlows(SubsetName(sub), flows) == flows
    ensures sub.Single? ==>
      forall k :: k in FilterFlows(SubsetName(sub), flows) <==> k in flows && k.sector == sub.sector
  {
    if sub.Single? {
      SectorNameNotAggregate(sub.sector);
      forall k ensures k in FilterFlows(SubsetName(sub), flows) <==> k in flows && k.sector == sub.sector {
        SectorNamePrefix(sub.sector, k);
      }
    }
  }

  /** The link lists of the flow diagram: source node, target node and value per edge. */
  datatype Sankey = Sankey(sources: seq<nat>, targets: seq<nat>, values: seq<real>)

  /** The edges of the flow diagram. Aggregate view: nodes 0-2 are the sectors and
      3-5 the pathways, edges grouped by pathway. One sector: node 0 is the sector
      and 1-3 the pathways. */
  function CreateSankey(flows: Flows, subset: Subset): (r: Sankey)
    requires subset == MostRecentData ==> Complete(flows)
    requires subset.Single? ==> Covers(flows, subset.sector)
    ensures |r.sources| == |r.targets| == |r.values|
  {
    match subset
    case MostRecentData =>
      assert Covers(flows, Retail) && Covers(flows, RestaurantsHotels) && Covers(flows, Residential);
      Sankey(
        [0, 1, 2, 0, 1, 2, 0, 1, 2],
        [3, 3, 3, 4, 4, 4, 5, 5, 5],
        [flows[Key(Retail, Landfill)], flows[Key(RestaurantsHotels, Landfill)], flows[Key(Residential, Landfill)],
         flows[Key(Retail, Combustion)], flows[Key(RestaurantsHotels, Combustion)], flows[Key(Residential, Combustion)],
         flows[Key(Retail, Compost)], flows[Key(RestaurantsHotels, Compost)], flows[Key(Residential, Compost)]])
    case Single(s) =>
      Sankey([0, 0, 0], [1, 2, 3], [flows[Key(s, Landfill)], flows[Key(s, Combustion)], flows[Key(s, Compost)]])
  }

  /** Aggregate view: nine edges; edge k runs from sector node k mod 3 to pathway
      node 3 + k div 3 and carries that sector's flow to that pathway. */
  lemma SankeyAggregateEdges(flows: Flows)
    requires Complete(flows)
    ensures |CreateSankey(flows, MostRecentData).values| == 9
    ensures forall k :: 0 <= k < 9 ==>
      CreateSankey(flows, MostRecentData).sources[k] == k % 3 &&
      CreateSankey(flows, MostRecentData).targets[k] == 3 + k / 3 &&
      Key(Sectors[k % 3], Pathways[k / 3]) in flows &&
      CreateSankey(flows, MostRecentData).values[k] == flows[Key(Sectors[k % 3], Pathways[k / 3])]
  {
    var r := CreateSankey(flows, MostRecentData);
    forall k | 0 <= k < 9
      ensures r.sources[k] == k % 3 && r.targets[k] == 3 + k / 3
      ensures Key(Sectors[k % 3], Pathways[k / 3]) in flows
      ensures r.values[k] == flows[Key(Sectors[k % 3], Pathways[k / 3])]
    {
      assert Covers(flows, Sectors[k % 3]);
      if k < 3 {
      } else if k < 6 {
      } else {
      }
    }
  }

  /** One sector: three edges from node 0 to nodes 1, 2, 3 carrying the landfill,
      combustion and compost flows in that order. */
  lemma SankeySectorEdges(flows: Flows, s: Sector)
    requires Covers(flows, s)
    ensures |CreateSankey(flows, Single(s)).values| == 3
    ensures forall k :: 0 <= k < 3 ==>
      CreateSankey(flows, Single(s)).sources[k] == 0 &&
      CreateSankey(flows, Single(s)).targets[k] == k + 1 &&
      CreateSankey(flows, Single(s)).values[k] == flows[Key(s, Pathways[k])]
  {
  }

  lemma SumRealsThree(a: real, b: real, c: real)
    ensures SumReals([a, b, c]) == a + b + c
  {
    assert [c][1..] == [];
    assert SumReals([c]) == c;
    assert [b, c][1..] == [c];
    assert SumReals([b, c]) == b + c;
    assert [a, b, c][1..] == [b, c];
  }

  /** The diagram carries all the mass of the table it draws: the edge values of
      the aggregate view sum to the three sectors' totals, those of a sector's view
      to that sector's total. */
  lemma SankeyMass(flows: Flows, subset: Subset)
    requires subset == MostRecentData ==> Complete(flows)
    requires subset.Single? ==> Covers(flows, subset.sector)
    ensures subset == MostRecentData ==>
      SumReals(CreateSankey(flows, subset).values) ==
        SectorTotal(flows, Retail) + SectorTotal(flows, RestaurantsHotels) + SectorTotal(flows, Residential)
    ensures subset.Single? ==> SumReals(CreateSankey(flows, subset).values) == SectorTotal(flows, subset.sector)
  {
    var v := CreateSankey(flows, subset).values;
    match subset
    case MostRecentData =>
      assert Covers(flows, Retail) && Covers(flows, RestaurantsHotels) && Covers(flows, Residential);
      assert v == v[..3] + v[3..6] + v[6..];
      SumRealsAppend(v[..3] + v[3..6], v[6..]);
      SumRealsAppend(v[..3], v[3..6]);
      SumRealsThree(v[0], v[1], v[2]);
      assert v[..3] == [v[0], v[1], v[2]];
      SumRealsThree(v[3], v[4], v[5]);
      assert v[3..6] == [v[3], v[4], v[5]];
      SumRealsThree(v[6], v[7], v[8]);
      assert v[6..] == [v[6], v[7], v[8]];
    case Single(s) =>
      SumRealsThree(v[0], v[1], v[2]);
      assert v == [v[0], v[1], v[2]];
  }

  /** The two bar series of the impact chart, in millions: GHG and cost per bar. */
  datatype Series = Series(ghg: seq<real>, cost: seq<real>)

  const Million: real := 1000000.0

  /** The sum of all values of a per-sector table; each sector appears once in
      `Sectors`, so every value is counted once. */
  function SumValues(m: map<Sector, real>): real {
    SumOver(Sectors, m)
  }

  function SumOver(ss: seq<Sector>, m: map<Sector, real>): real {
    if ss == [] then 0.0 else (if ss[0] in m then m[ss[0]] else 0.0) + SumOver(ss[1..], m)
  }

  /** The bars of the impact chart. Aggregate view: one bar per sector and a
      fourth for the combined total. One sector: the adjusted impact, then the
      baseline impact recomputed from the baseline flows. */
  function CreateImpactGraph(ghg: map<Sector, real>, cost: map<Sector, real>, subset: Subset,
                             adjustedGhg: map<Sector, real>, adjustedCost: map<Sector, real>): (r: Series)
    requires subset == MostRecentData ==> forall s :: s in ghg && s in cost
    requires subset.Single? ==> subset.sector in adjustedGhg && subset.sector in adjustedCost
    ensures |r.ghg| == |r.cost| == if subset == MostRecentData then 4 else 2
  {
    match subset
    case MostRecentData =>
      Series(
        [ghg[Retail] / Million, ghg[RestaurantsHotels] / Million, ghg[Residential] / Million] + [SumValues(ghg) / Million],
        [cost[Retail] / Million, cost[RestaurantsHotels] / Million, cost[Residential] / Million] + [SumValues(cost) / Million])
    case Single(s) =>
      BaseFlowsWellFormed();
      Series(
        [adjustedGhg[s] / Million, SectorImpact(BaseFlows, s, GhgFactors) / Million],
        [adjustedCost[s] / Million, SectorImpact(BaseFlows, s, CostFactors) / Million])
  }

  lemma SumValuesAll(m: map<Sector, real>)
    requires forall s :: s in m
    ensures SumValues(m) == m[Retail] + m[RestaurantsHotels] + m[Residential]
  {
    assert [Residential][1..] == [];
    assert SumOver([Residential], m) == m[Residential];
    assert [RestaurantsHotels, Residential][1..] == [Residential];
    assert SumOver([RestaurantsHotels, Residential], m) == m[RestaurantsHotels] + m[Residential];
    assert Sectors[1..] == [RestaurantsHotels, Residential];
  }

  /** Aggregate view: four bars per series, the first three the sectors' impacts
      in millions and the fourth the sum of the first three. */
  lemma ImpactSeriesAggregate(ghg: map<Sector, real>, cost: map<Sector, real>,
                              adjustedGhg: map<Sector, real>, adjustedCost: map<Sector, real>)
    requires forall s :: s in ghg && s in cost
    ensures |CreateImpactGraph(ghg, cost, MostRecentData, adjustedGhg, adjustedCost).ghg| == 4
    ensures forall i :: 0 <= i < 3 ==>
      CreateImpactGraph(ghg, cost, MostRecentData, adjustedGhg, adjustedCost).ghg[i] == ghg[Sectors[i]] / Million &&
      CreateImpactGraph(ghg, cost, MostRecentData, adjustedGhg, adjustedCost).cost[i] == cost[Sectors[i]] / Million
    ensures var r := CreateImpactGraph(ghg, cost, MostRecentData, adjustedGhg, adjustedCost);
      r.ghg[3] == r.ghg[0] + r.ghg[1] + r.ghg[2] && r.cost[3] == r.cost[0] + r.cost[1] + r.cost[2]
  {
    SumValuesAll(ghg);
    SumValuesAll(cost);
    var r := CreateImpactGraph(ghg, cost, MostRecentData, adjustedGhg, adjustedCost);
    DivideSum(ghg[Retail], ghg[RestaurantsHotels], ghg[Residential]);
    DivideSum(cost[Retail], cost[RestaurantsHotels], cost[Residential]);
  }

  lemma DivideSum(a: real, b: real, c: real)
    ensures (a + b + c) / Million == a / Million + b / Million + c / Million
  {
  }

  /** One sector: two bars per series, the adjusted impact first and the
      sector's baseline impact second, the latter the same whatever aggregate
      tables the caller passes. */
  lemma ImpactSeriesSector(ghg: map<Sector, real>, cost: map<Sector, real>, s: Sector,
                           adjustedGhg: map<Sector, real>, adjustedCost: map<Sector, real>,
                           otherGhg: map<Sector, real>, otherCost: map<Sector, real>)
    requires s in adjustedGhg && s in adjustedCost
    ensures Complete(BaseFlows)
    ensures CreateImpactGraph(ghg, cost, Single(s), adjustedGhg, adjustedCost) ==
      Series(
        [adjustedGhg[s] / Million, CalculateImpacts(BaseFlows).ghg[s] / Million],
        [adjustedCost[s] / Million, CalculateImpacts(BaseFlows).cost[s] / Million])
    ensures CreateImpactGraph(ghg, cost, Single(s), adjustedGhg, adjustedCost) ==
      CreateImpactGraph(otherGhg, otherCost, Single(s), adjustedGhg, adjustedCost)
  {
    BaseFlowsWellFormed();
  }

  /** Both figures' data. */
  datatype Figures = Figures(sankey: Sankey, impact: Series)

  /** What the dashboard shows for the slider values `pct` and the dropdown's
      value `subset`: the baseline for the aggregate view, otherwise the chosen
      sector's flows redistributed by the sliders next to its baseline impact. */
  function UpdateDashboard(pct: Split, subset: Subset): (r: Figures)
    ensures subset == MostRecentData ==> |r.sankey.values| == 9 && |r.impact.ghg| == |r.impact.cost| == 4
    ensures subset.Single? ==> |r.sankey.values| == 3 && |r.impact.ghg| == |r.impact.cost| == 2
  {
    BaseFlowsWellFormed();
    match subset
    case MostRecentData =>
      var impacts := CalculateImpacts(BaseFlows);
      Figures(
        CreateSankey(BaseFlows, subset),
        CreateImpactGraph(impacts.ghg, impacts.cost, subset, impacts.ghg, impacts.cost))
    case Single(s) =>
      AdjustedFlowsShape(s, pct);
      var adjusted := AdjustedFlows(s, pct);
      var ghg := map[s := SectorImpact(adjusted, s, GhgFactors)];
      var cost := map[s := SectorImpact(adjusted, s, CostFactors)];
      Figures(
        CreateSankey(adjusted, subset),
        CreateImpactGraph(
          map[s := SectorImpact(BaseFlows, s, GhgFactors)],
          map[s := SectorImpact(BaseFlows, s, CostFactors)],
          subset, ghg, cost))
  }

  /** Aggregate view: the slider values are ignored, the diagram has nine edges
      that carry the whole baseline, and the bars are the baseline impacts with
      their total. */
  lemma UpdateDashboardAggregate(pct: Split, other: Split)
    ensures UpdateDashboard(pct, MostRecentData) == UpdateDashboard(other, MostRecentData)
    ensures Complete(BaseFlows)
    ensures UpdateDashboard(pct, MostRecentData).sankey == CreateSankey(BaseFlows, MostRecentData)
    ensures |UpdateDashboard(pct, MostRecentData).sankey.values| == 9
    ensures SumReals(UpdateDashboard(pct, MostRecentData).sankey.values) ==
      SectorTotal(BaseFlows, Retail) + SectorTotal(BaseFlows, RestaurantsHotels) + SectorTotal(BaseFlows, Residential)
    ensures UpdateDashboard(pct, MostRecentData).impact.ghg ==
      [952588.62177 / Million, 6527316.85326 / Million, 8104566.76315 / Million,
       (952588.62177 + 6527316.85326 + 8104566.76315) / Million]
    ensures UpdateDashboard(pct, MostRecentData).impact.cost ==
      [268898945.0 / Million, 1216954789.9 / Million, 1511004810.8 / Million,
       (268898945.0 + 1216954789.9 + 1511004810.8) / Million]
  {
    BaseFlowsWellFormed();
    BaselineImpacts();
    SankeyAggregateEdges(BaseFlows);
    SankeyMass(BaseFlows, MostRecentData);
    var impacts := CalculateImpacts(BaseFlows);
    SumValuesAll(impacts.ghg);
    SumValuesAll(impacts.cost);
  }

  /** One sector: three edges carrying the sector's baseline total split by the
      sliders, whose sum is the whole baseline total when the sliders sum to 100. */
  lemma UpdateDashboardSectorFlows(pct: Split, s: Sector)
    ensures Covers(BaseFlows, s)
    ensures UpdateDashboard(pct, Single(s)).sankey == CreateSankey(AdjustedFlows(s, pct), Single(s))
    ensures |UpdateDashboard(pct, Single(s)).sankey.values| == 3
    ensures forall k :: 0 <= k < 3 ==>
      UpdateDashboard(pct, Single(s)).sankey.values[k] == Share(SectorTotal(BaseFlows, s), pct.At(Pathways[k]))
    ensures pct.Sum() == Total ==> SumReals(UpdateDashboard(pct, Single(s)).sankey.values) == SectorTotal(BaseFlows, s)
  {
    BaseFlowsWellFormed();
    AdjustedFlowsShape(s, pct);
    var adjusted := AdjustedFlows(s, pct);
    SankeySectorEdges(adjusted, s);
    SankeyMass(adjusted, Single(s));
    if pct.Sum() == Total {
      AdjustedFlowsConserve(s, pct);
    }
  }

  /** One sector: the first bars are the adjusted impacts, in closed form, and the
      second the sector's baseline impacts. */
  lemma UpdateDashboardSectorImpacts(pct: Split, s: Sector)
    ensures Covers(BaseFlows, s) && Complete(BaseFlows)
    ensures UpdateDashboard(pct, Single(s)).impact.ghg ==
      [SectorTotal(BaseFlows, s) / 100.0 *
         ((pct.landfill as real) * GhgFactors.landfill + (pct.combustion as real) * GhgFactors.combustion
          + (pct.compost as real) * GhgFactors.compost) / Million,
       CalculateImpacts(BaseFlows).ghg[s] / Million]
    ensures UpdateDashboard(pct, Single(s)).impact.cost ==
      [SectorTotal(BaseFlows, s) / 100.0 *
         ((pct.landfill as real) * CostFactors.landfill + (pct.combustion as real) * CostFactors.combustion
          + (pct.compost as real) * CostFactors.compost) / Million,
       CalculateImpacts(BaseFlows).cost[s] / Million]
  {
    BaseFlowsWellFormed();
    AdjustedImpactClosedForm(s, pct, GhgFactors);
    AdjustedImpactClosedForm(s, pct, CostFactors);
  }
}
