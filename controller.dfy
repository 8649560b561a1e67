/** The dashboard's persistent widget state (the dropdown and the three sliders)
    and the user events that change it, each followed by the callback that
    rebalances the sliders. */
module Controller {
  import opened Data
  import opened Balancer
  import opened ViewModel

  class Dashboard {
    var subset: Subset
    var landfill: int
    var combustion: int
    var compost: int

    function Sliders(): Split
      reads this
    {
      Split(landfill, combustion, compost)
    }

    /** The sliders lie within their bounds and sum to 100. */
    predicate Valid()
      reads this
    {
      Sliders().Settled()
    }

    /** The layout's initial state: the aggregate view, sliders at 75/18/7. */
    constructor ()
      ensures Valid()
      ensures subset == MostRecentData && Sliders() == Split(75, 18, 7)
    {
      subset := MostRecentData;
      landfill, combustion, compost := 75, 18, 7;
    }

    /** Whether the sliders are disabled for the current dropdown value. */
    function Disabled(): (r: bool)
      reads this
      ensures r <==> subset == MostRecentData
    {
      SlidersDisabled(subset).0
    }

    /** A new dropdown value: the callback resets the sliders to the sector's
        defaults, or leaves them as they are for the aggregate view. */
    method SelectSubset(s: Subset)
      requires Valid()
      modifies this
      ensures Valid()
      ensures subset == s
      ensures Sliders() == Rebalance(SubsetDropdown, s, old(Sliders()))
      ensures s.Single? ==> Sliders() == DefaultSplit(s.sector)
      ensures s == MostRecentData ==> Sliders() == old(Sliders())
    {
      subset := s;
      landfill, combustion, compost := AdjustSliders(landfill, combustion, compost, subset, SubsetDropdown);
    }

    /** Slider `p`, enabled, dragged to `v` within its bounds: the callback keeps
        `v` and rebalances the other two sliders. */
    method MoveSlider(p: Pathway, v: int)
      requires Valid() && !Disabled()
      requires 0 <= v <= Total
      modifies this
      ensures Valid()
      ensures subset == old(subset)
      ensures Sliders() == SliderRule(old(Sliders()).With(p, v), p)
      ensures Sliders().At(p) == v
    {
      match p {
        case Landfill => landfill := v;
        case Combustion => combustion := v;
        case Compost => compost := v;
      }
      assert Sliders() == old(Sliders()).With(p, v);
      landfill, combustion, compost := AdjustSliders(landfill, combustion, compost, subset, Slider(p));
    }

    /** The figures' data for the current state; on a sector's view the diagram
        carries exactly that sector's baseline total. */
    method View() returns (f: Figures)
      requires Valid()
      ensures f == UpdateDashboard(Sliders(), subset)
      ensures subset.Single? ==> Covers(BaseFlows, subset.sector) && SumReals(f.sankey.values) == SectorTotal(BaseFlows, subset.sector)
      ensures subset == MostRecentData ==> |f.sankey.values| == 9 && |f.impact.ghg| == 4
    {
      f := UpdateDashboard(Sliders(), subset);
      match subset {
        case Single(s) => UpdateDashboardSectorFlows(Sliders(), s);
        case MostRecentData => UpdateDashboardAggregate(Sliders(), Sliders());
      }
    }
  }

  /** Toggling aggregate, retail, aggregate, retail: each return to the retail
      view brings back the retail defaults, not the sliders left behind. */
  method ToggleRetail() returns (first: Split, second: Split)
    ensures first == second == DefaultSplit(Retail)
  {
    var d := new Dashboard();
    d.SelectSubset(Single(Retail));
    first := d.Sliders();
    d.MoveSlider(Compost, 90);
    d.SelectSubset(MostRecentData);
    d.SelectSubset(Single(Retail));
    second := d.Sliders();
  }
}
