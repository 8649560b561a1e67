/** The flow redistributor: a sector's baseline total split across the pathways by
    the slider percentages. */
module Redistribution {
  import opened Data
  import opened Impacts
  import opened Balancer

  /** Sector `s`'s flows under the split `pct`: each pathway receives the sector's
      baseline total times its percentage, over 100. Only the sector's three keys
      are present. */
  function AdjustedFlows(s: Sector, pct: Split): Flows {
    BaseFlowsWellFormed();
    SplitFlows(s, SectorTotal(BaseFlows, s), pct)
  }

  /** Sector `s`'s keys, each mapped to `total` times its percentage over 100. */
  function SplitFlows(s: Sector, total: real, pct: Split): Flows {
    map[
      Key(s, Landfill) := Share(total, pct.landfill),
      Key(s, Combustion) := Share(total, pct.combustion),
      Key(s, Compost) := Share(total, pct.compost)]
  }

  /** `total` times the percentage `pct`, over 100. */
  function Share(total: real, pct: int): real {
    total * (pct as real) / 100.0
  }

  lemma SplitFlowsShape(s: Sector, total: real, pct: Split)
    ensures Covers(SplitFlows(s, total, pct), s)
    ensures forall k :: k in SplitFlows(s, total, pct) <==> k.sector == s
    ensures forall p :: SplitFlows(s, total, pct)[Key(s, p)] == Share(total, pct.At(p))
    ensures total >= 0.0 && pct.landfill >= 0 && pct.combustion >= 0 && pct.compost >= 0 ==>
      NonNegative(SplitFlows(s, total, pct))
  {
    var r := SplitFlows(s, total, pct);
    forall k ensures k in r <==> k.sector == s {
      if k.sector == s {
        assert k == Key(s, k.pathway);
        assert k.pathway == Landfill || k.pathway == Combustion || k.pathway == Compost;
      }
    }
    if total >= 0.0 && pct.landfill >= 0 && pct.combustion >= 0 && pct.compost >= 0 {
      NonNegativeShare(total, pct.landfill);
      NonNegativeShare(total, pct.combustion);
      NonNegativeShare(total, pct.compost);
    }
  }

  /** The redistributed table holds exactly the sector's three keys, each flow is
      the sector's baseline total times the percentage over 100, and no flow is
      negative when no percentage is. */
  lemma AdjustedFlowsShape(s: Sector, pct: Split)
    ensures Covers(BaseFlows, s) && Covers(AdjustedFlows(s, pct), s)
    ensures forall k :: k in AdjustedFlows(s, pct) <==> k.sector == s
    ensures forall p :: AdjustedFlows(s, pct)[Key(s, p)] == Share(SectorTotal(BaseFlows, s), pct.At(p))
    ensures pct.landfill >= 0 && pct.combustion >= 0 && pct.compost >= 0 ==> NonNegative(AdjustedFlows(s, pct))
  {
    BaseFlowsWellFormed();
    SplitFlowsShape(s, SectorTotal(BaseFlows, s), pct);
  }

  lemma NonNegativeShare(t: real, x: int)
    requires t >= 0.0 && x >= 0
    ensures Share(t, x) >= 0.0
  {
  }

  lemma SharesAdd(t: real, l: int, c: int, p: int)
    ensures Share(t, l) + Share(t, c) + Share(t, p) == Share(t, l + c + p)
  {
  }

  /** Mass is conserved: when the percentages sum to 100 the three redistributed
      flows add up to the sector's baseline total, only its split changes. */
  lemma AdjustedFlowsConserve(s: Sector, pct: Split)
    requires pct.Sum() == Total
    ensures Covers(AdjustedFlows(s, pct), s)
    ensures SectorTotal(AdjustedFlows(s, pct), s) == SectorTotal(BaseFlows, s)
  {
    AdjustedFlowsShape(s, pct);
    BaseFlowsWellFormed();
    var t := SectorTotal(BaseFlows, s);
    assert pct.At(Landfill) == pct.landfill && pct.At(Combustion) == pct.combustion && pct.At(Compost) == pct.compost;
    SharesAdd(t, pct.landfill, pct.combustion, pct.compost);
  }

  lemma SplitImpactClosedForm(s: Sector, total: real, pct: Split, f: Factors)
    ensures Covers(SplitFlows(s, total, pct), s)
    ensures SectorImpact(SplitFlows(s, total, pct), s, f) ==
      total / 100.0 *
        ((pct.landfill as real) * f.landfill + (pct.combustion as real) * f.combustion + (pct.compost as real) * f.compost)
  {
    SplitFlowsShape(s, total, pct);
    SectorImpactClosedForm(SplitFlows(s, total, pct), s, f);
    WeightedSplit(total, pct.landfill, pct.combustion, pct.compost, f);
  }

  /** The adjusted impact of a sector under any factor table is the baseline total
      over 100 times the percentage-weighted sum of the factors. */
  lemma AdjustedImpactClosedForm(s: Sector, pct: Split, f: Factors)
    ensures Covers(BaseFlows, s) && Covers(AdjustedFlows(s, pct), s)
    ensures SectorImpact(AdjustedFlows(s, pct), s, f) ==
      SectorTotal(BaseFlows, s) / 100.0 *
        ((pct.landfill as real) * f.landfill + (pct.combustion as real) * f.combustion + (pct.compost as real) * f.compost)
  {
    BaseFlowsWellFormed();
    SplitImpactClosedForm(s, SectorTotal(BaseFlows, s), pct, f);
  }

  lemma WeightedSplit(t: real, l: int, c: int, p: int, f: Factors)
    ensures Share(t, l) * f.landfill + Share(t, c) * f.combustion + Share(t, p) * f.compost
      == t / 100.0 * ((l as real) * f.landfill + (c as real) * f.combustion + (p as real) * f.compost)
  {
  }

  /** The residential default split 78/18/4 sends 17566039.92 of the sector's
      22520564 to landfill. */
  lemma ResidentialDefaultLandfill()
    ensures Covers(BaseFlows, Residential) && SectorTotal(BaseFlows, Residential) == 22520564.0
    ensures Key(Residential, Landfill) in AdjustedFlows(Residential, DefaultSplit(Residential))
    ensures AdjustedFlows(Residential, DefaultSplit(Residential))[Key(Residential, Landfill)] == 17566039.92
  {
    BaseFlowsWellFormed();
    AdjustedFlowsShape(Residential, DefaultSplit(Residential));
  }
}
