/**
 * components/project-blocks/stats-block.tsx: a list of figures shown as
 * cards or as one of six chart kinds, with feature toggles and a per-kind
 * variant string chosen in the CMS.
 *
 * The chart library is left out; the model keeps the decisions the
 * component makes before handing data to it.
 */
module StatsBlock {
  import opened Common
  import opened ProjectBlockTypes

  const DefaultChartType := "number-only"
  const DefaultVariant := "default"

  /** The chart kinds the component draws besides the number cards. */
  const ChartKinds: set<string> := {"area", "bar", "line", "pie", "radar", "radial"}

  /** `block.chart_type || 'number-only'`. */
  function ChartType(b: BlockFields): (t: string)
    ensures Truthy(b.chartType) ==> t == b.chartType.value
    ensures !Truthy(b.chartType) ==> t == DefaultChartType
  {
    OrString(b.chartType, DefaultChartType)
  }

  /** `block[`${chartType}_variant`] || 'default'`. */
  function Variant(b: BlockFields, chartType: string): (v: string)
    ensures var key := chartType + "_variant";
      (key in b.variants && b.variants[key] != "" ==> v == b.variants[key]) &&
      (key !in b.variants || b.variants[key] == "" ==> v == DefaultVariant)
  {
    var key := chartType + "_variant";
    if key in b.variants && b.variants[key] != "" then b.variants[key] else DefaultVariant
  }

  /** A toggle that is on unless the block sets it to `false`. */
  predicate OnUnlessFalse(flag: Option<bool>) {
    flag != Some(false)
  }

  /** A toggle that is off unless the block sets it to `true`. */
  predicate OffUnlessTrue(flag: Option<bool>) {
    flag == Some(true)
  }

  datatype Features = Features(legend: bool, grid: bool, axes: bool, dots: bool, labels: bool)

  function FeaturesOf(b: BlockFields): (f: Features)
    ensures f.legend <==> b.showLegend != Some(false)
    ensures f.grid <==> b.showGrid != Some(false)
    ensures f.axes <==> b.showAxes != Some(false)
    ensures f.dots <==> b.showDots == Some(true)
    ensures f.labels <==> b.showLabels == Some(true)
  {
    Features(OnUnlessFalse(b.showLegend), OnUnlessFalse(b.showGrid), OnUnlessFalse(b.showAxes),
             OffUnlessTrue(b.showDots), OffUnlessTrue(b.showLabels))
  }

  /** With no toggle set, legend, grid and axes are shown and dots and labels are not. */
  lemma DefaultFeatures(b: BlockFields)
    requires b.showLegend.None? && b.showGrid.None? && b.showAxes.None? && b.showDots.None? && b.showLabels.None?
    ensures FeaturesOf(b) == Features(true, true, true, false, false)
  {
  }

  /** One number card: the value with its suffix, the label, and the context in preference to the description. */
  datatype Card = Card(value: real, suffix: Option<string>, labelText: string, note: Option<string>)

  function CardOf(item: StatItem): (c: Card)
    ensures c.note.Some? <==> Truthy(item.context) || Truthy(item.description)
    ensures Truthy(item.context) ==> c.note == item.context
    ensures !Truthy(item.context) && Truthy(item.description) ==> c.note == item.description
    ensures c.value == item.value && c.labelText == item.labelText
    ensures c.suffix.Some? <==> Truthy(item.suffix)
    ensures c.suffix.Some? ==> c.suffix == item.suffix
  {
    var note := if Truthy(item.context) then item.context else if Truthy(item.description) then item.description else None;
    Card(item.value, Caption(item.suffix), item.labelText, note)
  }

  datatype Curve = Linear | Step | Natural

  /** `variant === 'linear' ? 'linear' : variant === 'step' ? 'step' : 'natural'`. */
  function CurveOf(variant: string): (c: Curve)
    ensures c == Linear <==> variant == "linear"
    ensures c == Step <==> variant == "step"
    ensures c == Natural <==> variant != "linear" && variant != "step"
  {
    if variant == "linear" then Linear else if variant == "step" then Step else Natural
  }

  const DonutVariants: set<string> := {"donut", "donut-text", "donut-active"}

  /** The pie's inner radius: 60 for the three donut variants, else 0 (a full pie). */
  function PieInnerRadius(variant: string): (r: int)
    ensures r == 60 <==> variant in DonutVariants
    ensures r == 0 <==> variant !in DonutVariants
  {
    if variant == "donut" || variant == "donut-text" || variant == "donut-active" then 60 else 0
  }

  /** `(index % 5) + 1`: the chart colour variable `--chart-N` of the item at `index`. */
  function Palette(index: nat): (n: nat)
    ensures 1 <= n <= 5
    ensures index < 5 ==> n == index + 1
  {
    (index % 5) + 1
  }

  /** The palette cycles through its five colours. */
  lemma PaletteCycles(index: nat)
    ensures Palette(index + 5) == Palette(index)
  {
  }

  /**
   * The colour config a pie builds with `reduce`: one key per item name,
   * set to that item's palette colour; a later item with the same name
   * overwrites an earlier one.
   */
  function ColourConfig(names: seq<string>): (config: map<string, nat>)
    ensures config.Keys == set n | n in names
    decreases |names|
  {
    if |names| == 0 then map[]
    else ColourConfig(names[..|names| - 1])[names[|names| - 1] := Palette(|names| - 1)]
  }

  /** The last position at which `name` occurs. */
  predicate LastOccurrence(names: seq<string>, name: string, i: int) {
    0 <= i < |names| && names[i] == name && forall j :: i < j < |names| ==> names[j] != name
  }

  /** A slice is coloured through its name, so it gets the colour of the last item sharing that name. */
  lemma {:induction false} ConfigColourIsLastOccurrence(names: seq<string>, name: string, i: int)
    requires LastOccurrence(names, name, i)
    ensures name in ColourConfig(names) && ColourConfig(names)[name] == Palette(i)
    decreases |names|
  {
    if i < |names| - 1 {
      var prefix := names[..|names| - 1];
      assert LastOccurrence(prefix, name, i);
      ConfigColourIsLastOccurrence(prefix, name, i);
    }
  }

  /** With distinct names, pie slice i is drawn in palette colour i, as the radial chart draws it directly. */
  lemma DistinctNamesGetOwnColour(names: seq<string>)
    requires forall i, j :: 0 <= i < j < |names| ==> names[i] != names[j]
    ensures forall i :: 0 <= i < |names| ==> ColourConfig(names)[names[i]] == Palette(i)
  {
    forall i | 0 <= i < |names|
      ensures ColourConfig(names)[names[i]] == Palette(i)
    {
      ConfigColourIsLastOccurrence(names, names[i], i);
    }
  }

  /** The chart the component draws, with the choices it makes from the variant and the toggles. */
  datatype Chart =
    | Numbers(cards: seq<Card>)
    | AreaChart(curve: Curve, stacked: bool, gradient: bool, dots: bool)
    | BarChart(horizontal: bool)
    | LineChart(curve: Curve, dots: bool)
    | PieChart(innerRadius: int, labels: bool, sliceColours: seq<nat>)
    | RadarChart(dots: bool, circleGrid: bool, fillOpacity: real)
    | RadialChart(stacked: bool, labels: bool, barColours: seq<nat>)

  /** The chart's data points, with the series label (`suffix || "Value"` of the first item). */
  datatype StatsView = StatsView(
    chart: Chart,
    features: Features,
    points: seq<(string, real)>,
    seriesLabel: string,
    description: Option<string>)

  function Names(items: seq<StatItem>): (ns: seq<string>)
    ensures |ns| == |items| && forall i :: 0 <= i < |items| ==> ns[i] == items[i].labelText
  {
    seq(|items|, i requires 0 <= i < |items| => items[i].labelText)
  }

  /** The chart for a known chart type with a non-empty item list. */
  function ChartFor(chartType: string, variant: string, f: Features, items: seq<StatItem>): (c: Option<Chart>)
    ensures c.Some? <==> chartType == DefaultChartType || chartType in ChartKinds
    ensures chartType == DefaultChartType ==> (c.Some? && c.value.Numbers? && |c.value.cards| == |items| &&
      forall i :: 0 <= i < |items| ==> c.value.cards[i] == CardOf(items[i]))
    ensures chartType == "area" ==> (c.Some? && c.value.AreaChart? && c.value.curve == CurveOf(variant) &&
      (c.value.stacked <==> variant == "stacked") && (c.value.gradient <==> variant == "gradient") && c.value.dots == f.dots)
    ensures chartType == "bar" ==> c.Some? && c.value.BarChart? && (c.value.horizontal <==> variant == "horizontal")
    ensures chartType == "line" ==> (c.Some? && c.value.LineChart? && c.value.curve == CurveOf(variant) &&
      (c.value.dots <==> variant == "dots" || f.dots))
    ensures chartType == "pie" ==> (c.Some? && c.value.PieChart? && c.value.innerRadius == PieInnerRadius(variant) &&
      c.value.labels == f.labels && |c.value.sliceColours| == |items| &&
      forall i :: 0 <= i < |items| ==> c.value.sliceColours[i] == ColourConfig(Names(items))[items[i].labelText])
    ensures chartType == "radar" ==> (c.Some? && c.value.RadarChart? &&
      (c.value.dots <==> variant == "dots" || f.dots) && (c.value.circleGrid <==> variant == "circle") &&
      c.value.fillOpacity == (if variant == "filled" then 0.6 else if variant == "lines-only" then 0.0 else 0.3))
    ensures chartType == "radial" ==> (c.Some? && c.value.RadialChart? &&
      (c.value.stacked <==> variant == "stacked") && (c.value.labels <==> f.labels || variant == "text") &&
      |c.value.barColours| == |items| && forall i :: 0 <= i < |items| ==> c.value.barColours[i] == Palette(i))
  {
    var names := Names(items);
    if chartType == DefaultChartType then
      Some(Numbers(seq(|items|, i requires 0 <= i < |items| => CardOf(items[i]))))
    else if chartType == "area" then
      Some(AreaChart(CurveOf(variant), variant == "stacked", variant == "gradient", f.dots))
    else if chartType == "bar" then
      Some(BarChart(variant == "horizontal"))
    else if chartType == "line" then
      Some(LineChart(CurveOf(variant), variant == "dots" || f.dots))
    else if chartType == "pie" then
      var config := ColourConfig(names);
      Some(PieChart(PieInnerRadius(variant), f.labels,
                    seq(|names|, i requires 0 <= i < |names| => config[names[i]])))
    else if chartType == "radar" then
      Some(RadarChart(variant == "dots" || f.dots, variant == "circle",
                      if variant == "filled" then 0.6 else if variant == "lines-only" then 0.0 else 0.3))
    else if chartType == "radial" then
      Some(RadialChart(variant == "stacked", f.labels || variant == "text",
                       seq(|items|, i requires 0 <= i < |items| => Palette(i))))
    else None
  }

  /** `StatsBlock`: nothing for a missing or empty item list or an unknown chart type. */
  function Render(b: BlockFields): (r: Option<StatsView>)
    ensures r.None? <==> (b.items.None? || |b.items.value| == 0 ||
                          (ChartType(b) != DefaultChartType && ChartType(b) !in ChartKinds))
    ensures r.Some? ==> r.value.features == FeaturesOf(b)
    ensures r.Some? ==> r.value.chart == ChartFor(ChartType(b), Variant(b, ChartType(b)), FeaturesOf(b), b.items.value).value
    ensures r.Some? ==> (|r.value.points| == |b.items.value| &&
      forall i :: 0 <= i < |b.items.value| ==> r.value.points[i] == (b.items.value[i].labelText, b.items.value[i].value))
    ensures r.Some? ==> r.value.seriesLabel == OrString(b.items.value[0].suffix, "Value")
    ensures r.Some? && ChartType(b) == DefaultChartType ==>
      r.value.chart == Numbers(seq(|b.items.value|, i requires 0 <= i < |b.items.value| => CardOf(b.items.value[i])))
    ensures r.Some? ==> (r.value.description.Some? <==> Truthy(b.description))
    ensures r.Some? ==> r.value.description == Caption(b.description)
  {
    if b.items.None? || |b.items.value| == 0 then None
    else
      var items := b.items.value;
      var chartType := ChartType(b);
      var chart := ChartFor(chartType, Variant(b, chartType), FeaturesOf(b), items);
      if chart.None? then None
      else
        var points := seq(|items|, i requires 0 <= i < |items| => (items[i].labelText, items[i].value));
        Some(StatsView(chart.value, FeaturesOf(b), points, OrString(items[0].suffix, "Value"), Caption(b.description)))
  }

  /** A block without a chart type shows one card per item, in order, each with context before description. */
  lemma NumberCardsInOrder(b: BlockFields)
    requires b.items.Some? && |b.items.value| > 0 && b.chartType.None?
    ensures var r := Render(b);
      r.Some? && r.value.chart.Numbers? && |r.value.chart.cards| == |b.items.value| &&
      forall i :: 0 <= i < |b.items.value| ==> r.value.chart.cards[i] == CardOf(b.items.value[i])
  {
  }

  /** The pie slices are coloured by the palette in item order whenever the item labels are distinct. */
  lemma PieSlicesFollowPalette(b: BlockFields)
    requires b.items.Some? && |b.items.value| > 0 && b.chartType == Some("pie")
    requires forall i, j :: 0 <= i < j < |b.items.value| ==> b.items.value[i].labelText != b.items.value[j].labelText
    ensures var r := Render(b);
      r.Some? && r.value.chart.PieChart? && |r.value.chart.sliceColours| == |b.items.value| &&
      forall i :: 0 <= i < |b.items.value| ==> r.value.chart.sliceColours[i] == Palette(i)
  {
    DistinctNamesGetOwnColour(Names(b.items.value));
  }
}
