# Food-waste impact dashboard: a Dafny model of its controller

The dashboard shows how three sectors (retail, restaurants+hotels, residential)
dispose of food waste through three pathways (landfill, combustion, compost), and
what that costs in greenhouse gas and money. A dropdown picks the aggregate view
"Most Recent Data" or one sector. For one sector, three linked percentage sliders
redistribute that sector's total waste across the pathways. The controller behind
the page does four things:

- **Slider balancer** (`balancer.dfy`, module `Balancer`). A dropdown change to a
  sector resets the sliders to that sector's literal default split. A slider move
  keeps the moved value and lowers one fixed partner slider, but only when the
  two together exceed 100. The third slider then gets whatever is left. The
  partners are compost → combustion, combustion → compost and landfill → compost.
  Any other trigger leaves the sliders as they are. `SliderRule`/`Rebalance`
  state the rule declaratively. `AdjustSliders` reassigns the values step by step
  as the callback does, and is proved equal to that rule.
- **Flow redistribution** (`redistribution.dfy`). Each pathway of the chosen
  sector gets the sector's baseline total × percentage / 100.
- **Impact calculation** (`impacts.dfy`). A sector's GHG or cost is the sum over
  the three pathways of flow × factor. It is proved linear under any factor
  table, so for both the GHG and the cost result: in scaling one sector's flows,
  and in adding two flow tables.
- **View-model data** (`viewmodel.dfy`). These are the Sankey edge lists, the two
  bar series of the impact chart, the prefix filter over flow keys, and the whole
  recomputation `UpdateDashboard`.

`data.dfy` holds the entities and the literal tables. The string keys
`"<sector>_to_<pathway>"` become a `Key(sector, pathway)` datatype. `KeyName`
rebuilds the string, and a lemma proves that no information is lost. Flow tables
are `map<Key, real>`, like app.py's dictionaries. Flows,
factors and the `/ 100` and `/ 1e6` scalings are exact `real`s. `controller.dfy`
holds a `Dashboard` class whose fields are the persistent widget values (dropdown
and three sliders). Its event methods run the balancer callback, and it keeps the
invariant "sliders in [0, 100], summing to 100".

Behaviour of the code worth knowing, which the model keeps:

- The code does not clamp slider values. It relies on the sliders' `min=0`/`max=100`.
  `AdjustSliders` and `MoveSlider` take the bounds as a precondition, and
  `Balancer.NoClamping` shows that a value of 120 would yield a negative slider.
- Combustion and landfill both take compost as their partner, and compost takes
  combustion, so the partners do not form a three-way cycle.
- On a change to the aggregate view the sliders keep their values; they are only
  disabled.
- By the code's formula and factors the retail baseline GHG is 952588.62177
  (`Impacts.BaselineImpacts`).

## Model

| member | source | states |
|---|---|---|
| `Data.BaseFlowsWellFormed` | app.py:10-20 | the baseline table holds all nine (sector, pathway) flows, none negative, and every sector's total is positive |
| `Data.FactorSigns` | app.py:23-24 | the GHG factor is positive for landfill and negative (an offset) for combustion and compost; every cost factor is positive, landfill and combustion cost the same and compost less |
| `Data.SectorTotal` | app.py:269 | the sum of a sector's three flows, the total that `adjusted_flows` redistributes; stated by `BaseFlowsWellFormed` (positive for every baseline sector) and `AdjustedFlowsConserve` |
| `Data.KeyName` | app.py:40 | the key string of a (sector, pathway) pair: the sector's name, then "_to_", then the pathway's name |
| `Data.KeyNameInjective` | app.py:40-45 | two keys have the same "<sector>_to_<pathway>" string exactly when they are the same key |
| `Data.SectorNamePrefix` | app.py:49-52 | a sector's name is a prefix of a key's string exactly when the key belongs to that sector |
| `Impacts.Weighted` | app.py:40-41 | the sum, over a list of pathways in order, of the sector's flow to each pathway times that pathway's factor; its properties are stated by `WeightedScale` and `WeightedOtherSector` |
| `Impacts.SectorImpact` | app.py:40-44 | a sector's GHG or cost: that sum over landfill, combustion and compost; its closed form and linearity are stated by `SectorImpactClosedForm`, `SectorImpactScale` and `SectorImpactAdd` |
| `Impacts.ImpactTable` | app.py:39-46 | the table holds every sector, each mapped to its flow-times-factor sum under the given factor table |
| `Impacts.CalculateImpacts` | app.py:39-46 | both result tables hold every sector, each the sector's flow-times-factor sum, under the GHG factors and the cost factors respectively |
| `Impacts.SectorImpactClosedForm` | app.py:275-276 | a sector's impact is landfill flow × landfill factor + combustion flow × combustion factor + compost flow × compost factor |
| `Impacts.WeightedScale` | app.py:40-44 | scaling a sector's flows by k scales the sum over any list of pathways by k |
| `Impacts.WeightedOtherSector` | app.py:40-44 | scaling one sector's flows leaves another sector's sum unchanged |
| `Impacts.SectorImpactScale` | app.py:275-276 | scaling a sector's flows by k scales its impact under any factor table by k |
| `Impacts.SectorImpactAdd` | app.py:275-276 | when a table's flows for a sector are the key-wise sums of two tables' flows, its impact is the sum of theirs |
| `Impacts.ImpactTableScale` | app.py:39-46 | scaling one sector's flows by k scales that sector's entry by k, under any factor table and so for both GHG and cost |
| `Impacts.ImpactTableScaleOthers` | app.py:39-46 | scaling one sector's flows leaves every other sector's entry unchanged, under any factor table |
| `Impacts.ImpactTableAdditive` | app.py:39-46 | every sector's entry for the key-wise sum of two complete tables is the sum of their entries, under any factor table |
| `Impacts.BaselineTable` | app.py:39-46 | the baseline impact table is the three sectors' closed-form baseline impacts |
| `Impacts.BaselineImpacts` | app.py:263 | the exact baseline GHG and cost of each sector, e.g. retail GHG 952588.62177 and cost 268898945 |
| `Balancer.DefaultSplit` | app.py:220-224 | each sector's literal default split (49/16/35, 79/19/2, 78/18/4), which is in range and sums to 100 |
| `Balancer.Partner` | app.py:233-247 | the slider a move may lower: combustion for compost, compost for combustion and for landfill; never the moved slider, and compost exactly when compost did not move |
| `Balancer.Remainder` | app.py:233-247 | the slider that takes what is left: landfill for compost and combustion, combustion for landfill; neither the moved slider nor its partner |
| `Balancer.SliderRule` | app.py:233-247 | the split after slider p moves with its new value in place: the moved value is kept and the three sum to 100, whatever the inputs |
| `Balancer.Rebalance` | app.py:226-249 | the callback's result for a trigger: the defaults on a dropdown change to a sector, the inputs on a change to the aggregate view or any other trigger, and a split keeping the moved value and summing to 100 after a slider move |
| `Balancer.AdjustSliders` | app.py:219-249 | the step-by-step callback returns exactly `Rebalance` of its inputs; after a slider move the values are in range, sum to 100 and the moved value is kept; a dropdown change to a sector gives a split summing to 100 |
| `Balancer.SlidersDisabled` | app.py:202-205 | the three disabled flags are always equal, and set exactly on the aggregate view |
| `Balancer.RolesPartition` | app.py:233-247 | for each moved slider, the slider, its partner and its remainder are the three sliders |
| `Balancer.SliderRuleBounds` | app.py:233-247 | from inputs in [0,100], a move keeps the moved value and leaves all three in [0,100] summing to 100 |
| `Balancer.SliderRulePartner` | app.py:234-246 | the partner keeps its value and the remainder takes 100 − moved − partner when moved + partner ≤ 100; otherwise the partner becomes 100 − moved and the remainder 0 |
| `Balancer.SettledIsStable` | app.py:233-247 | a split in range summing to 100 is a fixed point of every slider's rule |
| `Balancer.RebalancePreservesSettled` | app.py:226-249 | every event keeps in-range sliders in range and a split summing to 100 summing to 100; a slider event always ends summing to 100 |
| `Balancer.DisabledIffNoDefaults` | app.py:202-228 | the sliders are disabled exactly for the dropdown value whose change leaves every slider state unchanged |
| `Balancer.LandfillMoveAndBack` | app.py:243-247 | from 75/18/7 moving landfill to 90 gives 90/3/7, and moving it back to 75 gives 75/18/7 |
| `Balancer.NoClamping` | app.py:233-237 | the rule does not clamp: compost 120 with combustion 0 yields combustion −20 |
| `Redistribution.Share` | app.py:268-271 | a pathway's redistributed flow: the total times its percentage, over 100; its properties are stated by `NonNegativeShare` and `SharesAdd` |
| `Redistribution.SplitFlows` | app.py:267-272 | a one-sector table with each of the sector's three keys mapped to its share of the given total; stated by `SplitFlowsShape` |
| `Redistribution.AdjustedFlows` | app.py:267-272 | the `adjusted_flows` table: `SplitFlows` over the sector's baseline total; stated by `AdjustedFlowsShape` and `AdjustedFlowsConserve` |
| `Redistribution.SplitFlowsShape` | app.py:267-272 | the split table holds exactly the sector's three keys, each total × pct / 100, none negative when total and percentages are not |
| `Redistribution.AdjustedFlowsShape` | app.py:267-272 | the redistributed table holds exactly the sector's three keys, each baseline total × pct / 100, none negative when no percentage is |
| `Redistribution.AdjustedFlowsConserve` | app.py:267-272 | when the percentages sum to 100 the three redistributed flows sum to the sector's baseline total |
| `Redistribution.SplitImpactClosedForm` | app.py:267-276 | the impact of a split table is total / 100 × the percentage-weighted sum of the factors |
| `Redistribution.AdjustedImpactClosedForm` | app.py:267-276 | the adjusted impact is the sector's baseline total / 100 × the percentage-weighted sum of the factors |
| `Redistribution.ResidentialDefaultLandfill` | app.py:267-272 | residential's total is 22520564, and at its default split its landfill flow is 17566039.92 |
| `ViewModel.FilterFlows` | app.py:49-52 | for any category string: the filtered table is a sub-table of the input with the same values; "Most Recent Data" returns the input, any other string keeps exactly the keys whose string starts with it |
| `ViewModel.FilterFlowsSubset` | app.py:49-52 | filtering by "Most Recent Data" returns the table unchanged; filtering by a sector's name keeps exactly that sector's keys |
| `ViewModel.CreateSankey` | app.py:55-75 | the sources, targets and values lists have equal length |
| `ViewModel.SankeyAggregateEdges` | app.py:56-64 | aggregate view: 9 edges, edge k from node k mod 3 to node 3 + k div 3 with that sector's flow to that pathway |
| `ViewModel.SankeySectorEdges` | app.py:66-74 | sector view: 3 edges from node 0 to nodes 1, 2, 3 with the landfill, combustion, compost flows |
| `ViewModel.SankeyMass` | app.py:55-75 | the edge values sum to the three sectors' totals (aggregate) or to the chosen sector's total |
| `ViewModel.CreateImpactGraph` | app.py:104-112 | 4 bars per series for the aggregate view, 2 for a sector |
| `ViewModel.SumValuesAll` | app.py:107-108 | the sum of the values of a table holding all three sectors is the three values added |
| `ViewModel.ImpactSeriesAggregate` | app.py:105-108 | aggregate view: bars 1-3 are the sectors' impacts in millions and bar 4 is their sum, for GHG and cost |
| `ViewModel.ImpactSeriesSector` | app.py:109-112 | sector view: the adjusted impact, then the baseline impact recomputed from the baseline flows, whatever aggregate tables are passed |
| `ViewModel.UpdateDashboard` | app.py:260-284 | both figures' data for the sliders and the dropdown value: 9 edges and 4 bars per series for the aggregate view, 3 edges and 2 bars for a sector |
| `ViewModel.UpdateDashboardAggregate` | app.py:261-264 | aggregate view: slider values are ignored, 9 edges carry the whole baseline, and the bars are the exact baseline impacts and their totals in millions |
| `ViewModel.UpdateDashboardSectorFlows` | app.py:265-279 | sector view: 3 edges with baseline total × pct / 100, summing to the baseline total when the percentages sum to 100 |
| `ViewModel.UpdateDashboardSectorImpacts` | app.py:274-282 | sector view: the bars are the adjusted impact in closed form and the sector's baseline impact, in millions |
| `Controller.Dashboard.constructor` | app.py:157-186 | the initial state is the aggregate view with sliders 75/18/7, which satisfies the invariant |
| `Controller.Dashboard.Disabled` | app.py:202-205 | the sliders are disabled exactly on the aggregate view |
| `Controller.Dashboard.SelectSubset` | app.py:219-228 | a dropdown change sets the subset and resets the sliders to the sector's defaults, or keeps them for the aggregate view; the invariant holds |
| `Controller.Dashboard.MoveSlider` | app.py:233-247 | moving an enabled slider to v in [0,100] keeps v, applies the partner rule to the others, keeps the subset and the invariant |
| `Controller.Dashboard.View` | app.py:260-284 | the view is the recomputation for the current state; on a sector's view its edges sum to the sector's baseline total |
| `Controller.ToggleRetail` | app.py:226-228 | selecting retail, moving a slider, going back to the aggregate view and reselecting retail returns the retail defaults again |

## Left out

- Plotly figure construction (`go.Figure`, `go.Sankey`, `make_subplots`, layout, titles, axes, hover mode, padding): foreign library calls producing presentation output.
- The Dash app, the layout tree and `app.run_server`: UI and server plumbing. Only the initial widget values and the slider bounds are used.
- `ctx.triggered_id` and Dash's callback scheduling: the trigger is an explicit `Trigger` parameter. `AdjustSliders` also takes its own outputs as inputs in app.py, which can make it fire again. That re-firing is not modelled. `SettledIsStable` shows a settled split is a fixed point of every slider rule.
- Link colours and node colours: presentation only. The colour list cycles per edge and does not follow the aggregate view's pathway grouping.
- Labels and titles built with `capitalize()` and f-strings: display formatting. The category labels of the bar chart are left out; only the bar values are modelled.
- IEEE floating point: flows, factors and the divisions by 100 and 1e6 are exact rationals. Rounding is not modelled.
- Dropdown values other than the four options are not modelled: `Subset` has exactly those four values (the dropdown is not clearable). `FilterFlows` still takes any string.
- Controller.Dashboard.MoveSlider: requires an enabled slider and a value in [0,100], as the widgets enforce. A slider event on the aggregate view still reaches the callback's slider branches in app.py. That case is covered by `AdjustSliders` and `Rebalance`, not by the class.
- `KeyError`: a function that needs keys a flow table may lack requires them instead of failing, so the missing-key error path of app.py is not modelled. Every call site in app.py passes a table holding all the keys read: the complete `base_flows` table, or `adjusted_flows`, which holds the chosen sector's three keys. So that path is never reached.
