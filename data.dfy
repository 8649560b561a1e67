/** Sectors, disposal pathways, flow tables and the dashboard's fixed tables:
    the baseline flows and the two per-pathway factor tables. */
module Data {

  /** A waste-generating sector. */
  datatype Sector = Retail | RestaurantsHotels | Residential

  /** A disposal pathway. */
  datatype Pathway = Landfill | Combustion | Compost

  /** The dropdown's value: the aggregate "Most Recent Data" view or one sector. */
  datatype Subset = MostRecentData | Single(sector: Sector)

  /** A flow-table key; it stands for the string `KeyName(k)`, "<sector>_to_<pathway>". */
  datatype Key = Key(sector: Sector, pathway: Pathway)

  /** A flow table: flow volume per key, like app.py's string-keyed dictionaries. */
  type Flows = map<Key, real>

  /** A per-pathway factor table. */
  datatype Factors = Factors(landfill: real, combustion: real, compost: real) {
    function At(p: Pathway): real {
      match p
      case Landfill => landfill
      case Combustion => combustion
      case Compost => compost
    }
  }

  /** The order in which app.py walks sectors and pathways. */
  const Sectors: seq<Sector> := [Retail, RestaurantsHotels, Residential]
  const Pathways: seq<Pathway> := [Landfill, Combustion, Compost]

  /** The dropdown value of the aggregate view. */
  const AggregateName: string := "Most Recent Data"

  function SectorName(s: Sector): string {
    match s
    case Retail => "retail"
    case RestaurantsHotels => "restaurants+hotels"
    case Residential => "residential"
  }

  function PathwayName(p: Pathway): string {
    match p
    case Landfill => "landfill"
    case Combustion => "combustion"
    case Compost => "compost"
  }

  /** The dropdown value of a subset. */
  function SubsetName(sub: Subset): string {
    match sub
    case MostRecentData => AggregateName
    case Single(s) => SectorName(s)
  }

  /** The dictionary key app.py builds with f"{sector}_to_{pathway}". */
  function KeyName(k: Key): (r: string)
    ensures |r| == |SectorName(k.sector)| + 4 + |PathwayName(k.pathway)|
    ensures r[|SectorName(k.sector)|..|SectorName(k.sector)| + 4] == "_to_"
  {
    SectorName(k.sector) + "_to_" + PathwayName(k.pathway)
  }

  /** The table holds all three flows of sector `s`. */
  predicate Covers(flows: Flows, s: Sector) {
    forall p :: Key(s, p) in flows
  }

  /** The table holds all nine flows. */
  predicate Complete(flows: Flows) {
    forall s :: Covers(flows, s)
  }

  /** Every flow in the table is non-negative. */
  predicate NonNegative(flows: Flows) {
    forall k :: k in flows ==> flows[k] >= 0.0
  }

  /** The measured baseline flows. */
  const BaseFlows: Flows := map[
    Key(Retail, Landfill) := 2712077.0,
    Key(Retail, Combustion) := 881432.0,
    Key(Retail, Compost) := 1900141.0,
    Key(RestaurantsHotels, Landfill) := 14008021.0,
    Key(RestaurantsHotels, Combustion) := 3416734.0,
    Key(RestaurantsHotels, Compost) := 252512.0,
    Key(Residential, Landfill) := 17532332.0,
    Key(Residential, Combustion) := 4010257.0,
    Key(Residential, Compost) := 977975.0
  ]

  /** GHG intensity per unit mass (negative: a net offset). */
  const GhgFactors: Factors := Factors(0.50146, -0.13426, -0.15213)

  /** Cost per unit mass. */
  const CostFactors: Factors := Factors(69.7, 69.7, 9.7)

  /** The factor tables' shape: landfilling emits GHG while combustion and compost
      offset it, and compost is the cheapest pathway while landfill and combustion
      cost the same. */
  lemma FactorSigns()
    ensures GhgFactors.landfill > 0.0 && GhgFactors.combustion < 0.0 && GhgFactors.compost < 0.0
    ensures CostFactors.landfill == CostFactors.combustion && CostFactors.compost < CostFactors.landfill
    ensures forall p :: CostFactors.At(p) > 0.0
  {
  }

  /** The sum of the three flows of sector `s`. */
  function SectorTotal(flows: Flows, s: Sector): real
    requires Covers(flows, s)
  {
    flows[Key(s, Landfill)] + flows[Key(s, Combustion)] + flows[Key(s, Compost)]
  }

  /** The sum of a list of values, left to right. */
  function SumReals(xs: seq<real>): real {
    if xs == [] then 0.0 else xs[0] + SumReals(xs[1..])
  }

  lemma BaseFlowsWellFormed()
    ensures Complete(BaseFlows) && NonNegative(BaseFlows)
    ensures forall s :: SectorTotal(BaseFlows, s) > 0.0
  {
    forall s, p ensures Key(s, p) in BaseFlows {
      match s
      case Retail => match p { case Landfill => case Combustion => case Compost => }
      case RestaurantsHotels => match p { case Landfill => case Combustion => case Compost => }
      case Residential => match p { case Landfill => case Combustion => case Compost => }
    }
  }

  lemma {:induction false} SumRealsAppend(xs: seq<real>, ys: seq<real>)
    ensures SumReals(xs + ys) == SumReals(xs) + SumReals(ys)
  {
    if xs == [] {
      assert xs + ys == ys;
    } else {
      assert (xs + ys)[1..] == xs[1..] + ys;
      SumRealsAppend(xs[1..], ys);
    }
  }

  /** Every key's string names its sector and its pathway: the string-keyed
      dictionaries of app.py and the `Key` datatype hold the same information. */
  lemma KeyNameInjective(j: Key, k: Key)
    ensures KeyName(j) == KeyName(k) <==> j == k
  {
    if KeyName(j) == KeyName(k) {
      SectorNamePrefix(j.sector, k);
      var n := |SectorName(j.sector) + "_to_"|;
      assert KeyName(j)[n..] == PathwayName(j.pathway);
      assert KeyName(k)[n..] == PathwayName(k.pathway);
      PathwayNamesDistinct(j.pathway, k.pathway);
    }
  }

  lemma PathwayNamesDistinct(p: Pathway, q: Pathway)
    ensures PathwayName(p) == PathwayName(q) ==> p == q
  {
    if p != q {
      if p == Landfill || q == Landfill {
        assert PathwayName(p)[0] != PathwayName(q)[0];
      } else {
        assert PathwayName(p)[3] != PathwayName(q)[3];
      }
    }
  }

  /** No sector's dropdown value is the aggregate view's. */
  lemma SectorNameNotAggregate(s: Sector)
    ensures SectorName(s) != AggregateName
  {
    assert SectorName(s)[0] != AggregateName[0] by {
      match s
      case Retail =>
      case RestaurantsHotels =>
      case Residential =>
    }
  }

  /** A sector's name starts a key's string exactly when the key belongs to that
      sector: no sector name is a prefix of another sector's keys. */
  lemma SectorNamePrefix(s: Sector, k: Key)
    ensures SectorName(s) <= KeyName(k) <==> k.sector == s
  {
    var a, b := SectorName(s), KeyName(k);
    if k.sector == s {
      assert b[..|a|] == a;
    } else {
      assert b[..|SectorName(k.sector)|] == SectorName(k.sector);
      if s == Retail || k.sector == Retail {
        assert a[2] != b[2];
      } else {
        assert a[3] != b[3];
      }
    }
  }
}
