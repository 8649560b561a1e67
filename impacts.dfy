/** The impact calculator: per-sector GHG and cost of a flow table, each the sum
    over the three pathways of flow times the pathway's factor. */
module Impacts {
  import opened Data

  /** Sum over `dests`, in order, of sector `s`'s flow to each pathway times that
      pathway's factor: app.py's `sum(... for dest in [...])`. */
  function Weighted(flows: Flows, s: Sector, f: Factors, dests: seq<Pathway>): real
    requires Covers(flows, s)
  {
    if dests == [] then 0.0
    else flows[Key(s, dests[0])] * f.At(dests[0]) + Weighted(flows, s, f, dests[1..])
  }

  /** Sector `s`'s impact under factor table `f`. The same formula serves the
      full baseline table and a one-sector redistributed table. */
  function SectorImpact(flows: Flows, s: Sector, f: Factors): real
    requires Covers(flows, s)
  {
    Weighted(flows, s, f, Pathways)
  }

  /** The two dictionaries `calculate_impacts` returns. */
  datatype ImpactTables = ImpactTables(ghg: map<Sector, real>, cost: map<Sector, real>)

  lemma AllSectorsListed()
    ensures forall s :: s in Sectors
  {
    forall s ensures s in Sectors {
      if s == Retail {
        assert Sectors[0] == s;
      } else if s == RestaurantsHotels {
        assert Sectors[1] == s;
      } else {
        assert Sectors[2] == s;
      }
    }
  }

  /** Each sector's impact under factor table `f`. */
  function ImpactTable(values: Flows, f: Factors): (r: map<Sector, real>)
    requires Complete(values)
    ensures forall s :: s in r && r[s] == SectorImpact(values, s, f)
  {
    AllSectorsListed();
    map s | s in Sectors :: SectorImpact(values, s, f)
  }

  /** GHG and cost per sector of a table holding all nine flows. */
  function CalculateImpacts(values: Flows): (r: ImpactTables)
    requires Complete(values)
    ensures forall s :: s in r.ghg && s in r.cost
    ensures forall s :: r.ghg[s] == SectorImpact(values, s, GhgFactors)
    ensures forall s :: r.cost[s] == SectorImpact(values, s, CostFactors)
    ensures r.ghg == ImpactTable(values, GhgFactors) && r.cost == ImpactTable(values, CostFactors)
  {
    ImpactTables(ImpactTable(values, GhgFactors), ImpactTable(values, CostFactors))
  }

  /** Scales sector `s`'s flows by `k`, leaving the other sectors' flows as they are. */
  function ScaleSector(flows: Flows, s: Sector, k: real): (r: Flows)
    ensures r.Keys == flows.Keys
  {
    map key | key in flows :: if key.sector == s then k * flows[key] else flows[key]
  }

  /** The key-wise sum of two flow tables. */
  function AddFlows(a: Flows, b: Flows): (r: Flows)
    ensures r.Keys == a.Keys * b.Keys
  {
    map key | key in a && key in b :: a[key] + b[key]
  }

  lemma MulAssoc(k: real, x: real, c: real)
    ensures (k * x) * c == k * (x * c)
  {
  }

  lemma MulDistrib(x: real, y: real, c: real)
    ensures (x + y) * c == x * c + y * c
  {
  }

  lemma AddStep(z: real, x: real, y: real, c: real)
    requires z == x + y
    ensures z * c == x * c + y * c
  {
    MulDistrib(x, y, c);
  }

  /** The impact is the three-term sum flow × factor over landfill, combustion, compost. */
  lemma SectorImpactClosedForm(flows: Flows, s: Sector, f: Factors)
    requires Covers(flows, s)
    ensures SectorImpact(flows, s, f) ==
      flows[Key(s, Landfill)] * f.landfill
      + flows[Key(s, Combustion)] * f.combustion
      + flows[Key(s, Compost)] * f.compost
  {
    var l, c, p := flows[Key(s, Landfill)], flows[Key(s, Combustion)], flows[Key(s, Compost)];
    assert [Compost][1..] == [];
    assert Weighted(flows, s, f, [Compost]) == p * f.compost;
    assert [Combustion, Compost][1..] == [Compost];
    assert Weighted(flows, s, f, [Combustion, Compost]) == c * f.combustion + p * f.compost;
    assert Pathways[1..] == [Combustion, Compost];
    assert Weighted(flows, s, f, Pathways) == l * f.landfill + (c * f.combustion + p * f.compost);
  }

  lemma {:induction false} WeightedScale(flows: Flows, s: Sector, k: real, f: Factors, dests: seq<Pathway>)
    requires Covers(flows, s)
    ensures Covers(ScaleSector(flows, s, k), s)
    ensures Weighted(ScaleSector(flows, s, k), s, f, dests) == k * Weighted(flows, s, f, dests)
  {
    if dests != [] {
      WeightedScale(flows, s, k, f, dests[1..]);
      var key := Key(s, dests[0]);
      var x, c := flows[key], f.At(dests[0]);
      assert ScaleSector(flows, s, k)[key] == k * x;
      MulAssoc(k, x, c);
    }
  }

  lemma {:induction false} WeightedOtherSector(flows: Flows, s: Sector, t: Sector, k: real, f: Factors, dests: seq<Pathway>)
    requires Covers(flows, t) && t != s
    ensures Covers(ScaleSector(flows, s, k), t)
    ensures Weighted(ScaleSector(flows, s, k), t, f, dests) == Weighted(flows, t, f, dests)
  {
    if dests != [] {
      WeightedOtherSector(flows, s, t, k, f, dests[1..]);
    }
  }

  /** Sector `s`'s flows in `ab` are the key-wise sums of its flows in `a` and `b`. */
  predicate SumAt(ab: Flows, a: Flows, b: Flows, s: Sector) {
    forall p :: Key(s, p) in ab && Key(s, p) in a && Key(s, p) in b && ab[Key(s, p)] == a[Key(s, p)] + b[Key(s, p)]
  }

  lemma AddFlowsSumAt(a: Flows, b: Flows, s: Sector)
    requires Covers(a, s) && Covers(b, s)
    ensures Covers(AddFlows(a, b), s) && SumAt(AddFlows(a, b), a, b, s)
  {
    var ab := AddFlows(a, b);
    forall p ensures Key(s, p) in ab {
      assert Key(s, p) in a.Keys * b.Keys;
    }
  }

  /** The impact of a table whose flows for sector `s` are the key-wise sums of
      two tables' is the sum of their impacts. */
  lemma SectorImpactAdd(ab: Flows, a: Flows, b: Flows, s: Sector, f: Factors)
    requires SumAt(ab, a, b, s)
    ensures Covers(ab, s) && Covers(a, s) && Covers(b, s)
    ensures SectorImpact(ab, s, f) == SectorImpact(a, s, f) + SectorImpact(b, s, f)
  {
    var l, c, p := Key(s, Landfill), Key(s, Combustion), Key(s, Compost);
    assert Covers(ab, s) && Covers(a, s) && Covers(b, s);
    SectorImpactClosedForm(ab, s, f);
    SectorImpactClosedForm(a, s, f);
    SectorImpactClosedForm(b, s, f);
    AddStep(ab[l], a[l], b[l], f.landfill);
    AddStep(ab[c], a[c], b[c], f.combustion);
    AddStep(ab[p], a[p], b[p], f.compost);
  }

  /** Scaling a sector's flows by `k` scales its impact under any factor table by `k`. */
  lemma SectorImpactScale(flows: Flows, s: Sector, k: real, f: Factors)
    requires Covers(flows, s)
    ensures Covers(ScaleSector(flows, s, k), s)
    ensures SectorImpact(ScaleSector(flows, s, k), s, f) == k * SectorImpact(flows, s, f)
  {
    WeightedScale(flows, s, k, f, Pathways);
  }

  lemma ScaleSectorComplete(values: Flows, s: Sector, k: real)
    requires Complete(values)
    ensures Complete(ScaleSector(values, s, k))
  {
    var scaled := ScaleSector(values, s, k);
    forall t, p ensures Key(t, p) in scaled {
      assert Covers(values, t);
    }
  }

  /** Scaling all of one sector's flows by `k` scales that sector's impact under
      any factor table by `k`, so both the GHG and the cost result. */
  lemma ImpactTableScale(values: Flows, s: Sector, k: real, f: Factors)
    requires Complete(values)
    ensures Complete(ScaleSector(values, s, k))
    ensures ImpactTable(ScaleSector(values, s, k), f)[s] == k * ImpactTable(values, f)[s]
  {
    ScaleSectorComplete(values, s, k);
    SectorImpactScale(values, s, k, f);
  }

  /** ... and leaves the impact of every other sector as it was. */
  lemma ImpactTableScaleOthers(values: Flows, s: Sector, t: Sector, k: real, f: Factors)
    requires Complete(values) && t != s
    ensures Complete(ScaleSector(values, s, k))
    ensures ImpactTable(ScaleSector(values, s, k), f)[t] == ImpactTable(values, f)[t]
  {
    ScaleSectorComplete(values, s, k);
    WeightedOtherSector(values, s, t, k, f, Pathways);
  }

  /** The impact of the key-wise sum of two flow tables is the sum of their impacts,
      under any factor table. */
  lemma ImpactTableAdditive(a: Flows, b: Flows, f: Factors)
    requires Complete(a) && Complete(b)
    ensures Complete(AddFlows(a, b))
    ensures forall s :: ImpactTable(AddFlows(a, b), f)[s] == ImpactTable(a, f)[s] + ImpactTable(b, f)[s]
  {
    forall s ensures Covers(AddFlows(a, b), s) && SumAt(AddFlows(a, b), a, b, s) {
      AddFlowsSumAt(a, b, s);
    }
    forall s ensures ImpactTable(AddFlows(a, b), f)[s] == ImpactTable(a, f)[s] + ImpactTable(b, f)[s] {
      SectorImpactAdd(AddFlows(a, b), a, b, s, f);
    }
  }

  /** The baseline impacts the aggregate view shows, as exact rationals. */
  lemma BaselineImpacts()
    ensures Complete(BaseFlows)
    ensures CalculateImpacts(BaseFlows).ghg == map[
      Retail := 952588.62177, RestaurantsHotels := 6527316.85326, Residential := 8104566.76315]
    ensures CalculateImpacts(BaseFlows).cost == map[
      Retail := 268898945.0, RestaurantsHotels := 1216954789.9, Residential := 1511004810.8]
  {
    BaseFlowsWellFormed();
    BaselineTable(GhgFactors, 952588.62177, 6527316.85326, 8104566.76315);
    BaselineTable(CostFactors, 268898945.0, 1216954789.9, 1511004810.8);
  }

  /** The baseline impact table under `f`, given each sector's impact. */
  lemma BaselineTable(f: Factors, retail: real, restaurants: real, residential: real)
    requires BaselineSector(Retail, f) == retail
    requires BaselineSector(RestaurantsHotels, f) == restaurants
    requires BaselineSector(Residential, f) == residential
    ensures Complete(BaseFlows)
    ensures ImpactTable(BaseFlows, f) == map[Retail := retail, RestaurantsHotels := restaurants, Residential := residential]
  {
    BaseFlowsWellFormed();
    var t := ImpactTable(BaseFlows, f);
    var m := map[Retail := retail, RestaurantsHotels := restaurants, Residential := residential];
    forall s ensures s in t && s in m && t[s] == m[s] {
      BaselineEntry(s, f);
    }
    assert t.Keys == m.Keys;
  }

  lemma BaselineEntry(s: Sector, f: Factors)
    ensures Complete(BaseFlows)
    ensures ImpactTable(BaseFlows, f)[s] == BaselineSector(s, f)
  {
    BaseFlowsWellFormed();
    SectorImpactClosedForm(BaseFlows, s, f);
  }

  /** Sector `s`'s baseline impact under `f`, in closed form. */
  function BaselineSector(s: Sector, f: Factors): real {
    BaseFlowsWellFormed();
    assert Covers(BaseFlows, s);
    BaseFlows[Key(s, Landfill)] * f.landfill
      + BaseFlows[Key(s, Combustion)] * f.combustion
      + BaseFlows[Key(s, Compost)] * f.compost
  }
}
