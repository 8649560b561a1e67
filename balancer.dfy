/** The allocation balancer: the three linked percentage sliders and the callback
    that rebalances them after a dropdown change or a slider move. */
module Balancer {
  import opened Data

  /** The three slider percentages, in the order the callback returns them. */
  datatype Split = Split(landfill: int, combustion: int, compost: int) {
    function At(p: Pathway): int {
      match p
      case Landfill => landfill
      case Combustion => combustion
      case Compost => compost
    }

    /** This split with pathway `p` set to `v`. */
    function With(p: Pathway, v: int): (r: Split)
      ensures r.At(p) == v
      ensures forall q :: q != p ==> r.At(q) == At(q)
    {
      match p
      case Landfill => this.(landfill := v)
      case Combustion => this.(combustion := v)
      case Compost => this.(compost := v)
    }

    function Sum(): int {
      landfill + combustion + compost
    }

    /** Every value lies within the sliders' bounds, 0 to 100. */
    predicate InRange() {
      0 <= landfill <= Total && 0 <= combustion <= Total && 0 <= compost <= Total
    }

    /** Within bounds and summing to 100. */
    predicate Settled() {
      InRange() && Sum() == Total
    }
  }

  const Total: int := 100

  /** The component whose change fired the callback. */
  datatype Trigger = SubsetDropdown | Slider(pathway: Pathway) | OtherSource

  /** The literal default split of each sector. */
  function DefaultSplit(s: Sector): (r: Split)
    ensures r.Settled()
  {
    match s
    case Retail => Split(49, 16, 35)
    case RestaurantsHotels => Split(79, 19, 2)
    case Residential => Split(78, 18, 4)
  }

  /** The one other slider that moving `p` may lower. */
  function Partner(p: Pathway): (r: Pathway)
    ensures r != p
    ensures r == Compost <==> p != Compost
  {
    match p
    case Compost => Combustion
    case Combustion => Compost
    case Landfill => Compost
  }

  /** The slider that moving `p` sets to whatever is left. */
  function Remainder(p: Pathway): (r: Pathway)
    ensures r != p && r != Partner(p)
  {
    match p
    case Compost => Landfill
    case Combustion => Landfill
    case Landfill => Combustion
  }

  function Min(a: int, b: int): int {
    if a <= b then a else b
  }

  /** The rule for a move of slider `p` (its new value is already in `s`): the
      partner is cut down to what the moved slider leaves, and the remainder takes
      the rest. */
  function SliderRule(s: Split, p: Pathway): (r: Split)
    ensures r.At(p) == s.At(p)
    ensures r.Sum() == Total
  {
    var v := s.At(p);
    var kept := Min(s.At(Partner(p)), Total - v);
    s.With(Partner(p), kept).With(Remainder(p), Total - v - kept)
  }

  /** What the callback returns for trigger `t`, the dropdown's value `subset` and
      the slider values `s`. */
  function Rebalance(t: Trigger, subset: Subset, s: Split): (r: Split)
    ensures t == OtherSource || (t == SubsetDropdown && subset == MostRecentData) ==> r == s
    ensures t == SubsetDropdown && subset.Single? ==> r == DefaultSplit(subset.sector)
    ensures t.Slider? ==> r.At(t.pathway) == s.At(t.pathway) && r.Sum() == Total
  {
    match t
    case SubsetDropdown => if subset.Single? then DefaultSplit(subset.sector) else s
    case Slider(p) => SliderRule(s, p)
    case OtherSource => s
  }

  /** The dashboard's `adjust_sliders` callback, written as app.py writes it: the defaults on a dropdown
      change to a sector, otherwise the branch of the moved slider reassigns its
      partner and its remainder in turn. */
  method AdjustSliders(landfill0: int, combustion0: int, compost0: int, subset: Subset, trigger: Trigger)
    returns (landfill: int, combustion: int, compost: int)
    requires Split(landfill0, combustion0, compost0).InRange()
    ensures Split(landfill, combustion, compost) == Rebalance(trigger, subset, Split(landfill0, combustion0, compost0))
    ensures trigger.Slider? ==> Split(landfill, combustion, compost).Settled()
    ensures trigger.Slider? ==>
      Split(landfill, combustion, compost).At(trigger.pathway) == Split(landfill0, combustion0, compost0).At(trigger.pathway)
    ensures trigger == SubsetDropdown && subset.Single? ==> Split(landfill, combustion, compost).Settled()
  {
    landfill, combustion, compost := landfill0, combustion0, compost0;
    if subset.Single? {
      if trigger == SubsetDropdown {
        var d := DefaultSplit(subset.sector);
        return d.landfill, d.combustion, d.compost;
      }
    }

    if trigger == Slider(Compost) {
      if compost + combustion > Total {
        combustion := Total - compost;
      }
      landfill := Total - compost - combustion;
      return;
    } else if trigger == Slider(Combustion) {
      if combustion + compost > Total {
        compost := Total - combustion;
      }
      landfill := Total - compost - combustion;
      return;
    } else if trigger == Slider(Landfill) {
      if landfill + compost > Total {
        compost := Total - landfill;
      }
      combustion := Total - landfill - compost;
      return;
    }
  }

  /** The three sliders' `disabled` flags for a dropdown value: all three disabled
      exactly on the aggregate view. */
  function SlidersDisabled(subset: Subset): (r: (bool, bool, bool))
    ensures r.0 == r.1 == r.2
    ensures r.0 <==> subset == MostRecentData
  {
    if subset == MostRecentData then (true, true, true) else (false, false, false)
  }

  /** Moving a slider, the slider, its partner and its remainder are all three sliders. */
  lemma RolesPartition(p: Pathway)
    ensures {p, Partner(p), Remainder(p)} == {Landfill, Combustion, Compost}
  {
  }

  /** From in-range sliders a move keeps the moved value and lands in range. */
  lemma SliderRuleBounds(s: Split, p: Pathway)
    requires s.InRange()
    ensures SliderRule(s, p).At(p) == s.At(p)
    ensures SliderRule(s, p).Settled()
  {
    RolesPartition(p);
    var r := SliderRule(s, p);
    assert 0 <= r.At(p) <= Total && 0 <= r.At(Partner(p)) <= Total && 0 <= r.At(Remainder(p)) <= Total;
    assert r.InRange() by {
      match p
      case Landfill =>
      case Combustion =>
      case Compost =>
    }
  }

  /** The partner rule: the partner keeps its value when the moved value plus the
      partner fit in 100 (and the remainder takes the slack); otherwise the partner
      drops to 100 minus the moved value and the remainder to 0. */
  lemma SliderRulePartner(s: Split, p: Pathway)
    ensures s.At(p) + s.At(Partner(p)) <= Total ==>
      SliderRule(s, p).At(Partner(p)) == s.At(Partner(p)) &&
      SliderRule(s, p).At(Remainder(p)) == Total - s.At(p) - s.At(Partner(p))
    ensures s.At(p) + s.At(Partner(p)) > Total ==>
      SliderRule(s, p).At(Partner(p)) == Total - s.At(p) &&
      SliderRule(s, p).At(Remainder(p)) == 0
  {
    RolesPartition(p);
  }

  /** A settled split is a fixed point of every slider's rule, so firing the
      callback again on its own output changes nothing. */
  lemma SettledIsStable(s: Split, p: Pathway)
    requires s.Settled()
    ensures SliderRule(s, p) == s
  {
    RolesPartition(p);
    var r := SliderRule(s, p);
    assert s.At(p) + s.At(Partner(p)) + s.At(Remainder(p)) == Total by {
      match p
      case Landfill =>
      case Combustion =>
      case Compost =>
    }
    SliderRulePartner(s, p);
    assert forall q :: r.At(q) == s.At(q);
    assert r.landfill == s.landfill && r.combustion == s.combustion && r.compost == s.compost by {
      assert r.At(Landfill) == s.At(Landfill);
      assert r.At(Combustion) == s.At(Combustion);
      assert r.At(Compost) == s.At(Compost);
    }
  }

  /** Every event maps in-range sliders to in-range sliders and a settled split to
      a settled split: the sum-to-100 invariant holds after every event. */
  lemma RebalancePreservesSettled(t: Trigger, subset: Subset, s: Split)
    requires s.InRange()
    ensures Rebalance(t, subset, s).InRange()
    ensures s.Settled() ==> Rebalance(t, subset, s).Settled()
    ensures t.Slider? ==> Rebalance(t, subset, s).Settled()
  {
    match t
    case Slider(p) => SliderRuleBounds(s, p);
    case SubsetDropdown =>
    case OtherSource =>
  }

  /** The sliders are disabled exactly on the dropdown values for which a dropdown
      change leaves every slider state as it was, i.e. those without defaults. */
  lemma DisabledIffNoDefaults(subset: Subset)
    ensures SlidersDisabled(subset).0 <==> forall s :: Rebalance(SubsetDropdown, subset, s) == s
  {
    if subset.Single? {
      var s := Split(0, 0, 0);
      assert Rebalance(SubsetDropdown, subset, s) != s;
    }
  }

  /** The layout's initial values 75/18/7 after moving the landfill slider to 90,
      and then back to 75. */
  lemma LandfillMoveAndBack()
    ensures SliderRule(Split(90, 18, 7), Landfill) == Split(90, 3, 7)
    ensures SliderRule(Split(75, 3, 7), Landfill) == Split(75, 18, 7)
  {
  }

  /** The callback does not clamp: the rule relies on the sliders' bounds, and a
      value above 100 yields a negative slider. */
  lemma NoClamping()
    ensures SliderRule(Split(0, 0, 120), Compost) == Split(0, -20, 120)
  {
  }
}
