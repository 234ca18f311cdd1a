/**
 * The structure builder of the report service: from a chart selection it
 * builds the plot, the plot area, the data source, the data set and the
 * report that holds them (src/app/report.service.ts).
 */
module ReportBuilder {
  import opened Wrappers
  import opened Catalog
  import opened RowNormalizer
  import opened Rdl

  /** The selection the form hands to the builder. */
  datatype ReportStructure = ReportStructure(dataType: ChartDataType, plotType: string, palette: string, grouping: bool)

  /** The title of the chart for a data type. */
  function ChartTitle(dataType: ChartDataType): (r: string)
    ensures forall i :: 0 <= i < |ChartDataTypes| && ChartDataTypes[i].value == EnumValue(dataType) ==>
      ChartDataTypes[i].text == Some(r)
  {
    match dataType
    case SalesOverTime => "Sales over time"
    case SalesPerChannel => "Sales per channel"
    case SalesPerCategory => "Sales per category"
  }

  /** The labels of the form's data-type options are the chart titles of those data types. */
  lemma DataTypeLabelsAreTitles()
    ensures forall i :: 0 <= i < |ChartDataTypes| ==>
      ParseDataType(ChartDataTypes[i].value).Some? &&
      ChartDataTypes[i].text == Some(ChartTitle(ParseDataType(ChartDataTypes[i].value).value))
  {
  }

  /** Distinct data types get distinct titles. */
  lemma ChartTitleInjective(a: ChartDataType, b: ChartDataType)
    requires ChartTitle(a) == ChartTitle(b)
    ensures a == b
  {
  }

  // Shared pieces of the descriptor

  const PlotName: string := "Plot"

  function FieldOf(fieldName: string): FieldRef {
    FieldRef([FieldVal(fieldName)])
  }

  const ColorLegend: Legend := Legend("Color", "Vertical", "Right")

  /** Every plot carries one encoding of values: the sum of SalesAmount. */
  predicate SumsSalesAmount(p: Plot) {
    && p.PlotName == PlotName
    && |p.Encodings.Values| == 1
    && p.Encodings.Values[0].Aggregate == "Sum"
    && ReadsField(p.Encodings.Values[0].Field, "SalesAmount")
  }

  /** The plot is split by sales channel, grouped as `group`, and coloured by channel. */
  predicate SplitByChannel(p: Plot, group: string) {
    p.Encodings.Details == Some([DetailsEncoding(FieldOf("SalesChannel"), group)]) &&
    p.Encodings.Color == Some(ColorEncoding(FieldOf("SalesChannel")))
  }

  predicate Unsplit(p: Plot) {
    p.Encodings.Details.None? && p.Encodings.Color.None?
  }

  /** An X and a Y axis, both bound to the plot named `name`. */
  predicate AxesBoundTo(a: PlotArea, name: string) {
    && |a.Axes| == 2
    && a.Axes[0].AxisType == "X"
    && a.Axes[1].AxisType == "Y"
    && forall i :: 0 <= i < |a.Axes| ==> a.Axes[i].Plots == [name]
  }

  /** The chart family a plot belongs to, read off its configuration alone. */
  function PlotFamily(p: Plot): Option<ChartDataType> {
    match p.Config
    case Some(LineConfig(_, _, _)) => Some(SalesOverTime)
    case Some(RadialConfig(_, _, _, _)) => Some(SalesPerChannel)
    case Some(SwapConfig(_)) => Some(SalesPerCategory)
    case None => None
  }

  const SumOfSalesAmount: seq<ValuesEncoding> := [ValuesEncoding(FieldOf("SalesAmount"), "Sum")]

  const AxisLabelStyle: Option<LabelStyle> := Some(LabelStyle("#1a1a1a"))

  const AxisLine: Option<BorderStyle> := Some(BorderStyle(Border("#ccc", "2pt", "Solid")))

  /** The Y axis of the time and column/bar plot areas: currency without decimals, dotted major grid. */
  const CurrencyAxis: Axis := Axis(
    "Y", [PlotName], None, Some("c0"), None, None, AxisLabelStyle, None,
    Some(true), Some(BorderStyle(Border("#ccc", "0.25pt", "Dotted"))))

  // Pie family

  function BuildPiePlot(s: ReportStructure): (p: Plot)
    ensures SumsSalesAmount(p)
    ensures p.PlotChartType == Some("Pie") && p.PlotType.None?
    ensures p.Config.Some? && p.Config.value.RadialConfig? && p.Config.value.Radial
    ensures p.Config.value.InnerRadius == 0.2 <==> s.plotType == "Donut"
    ensures p.Config.value.InnerRadius == 0.0 <==> s.plotType != "Donut"
    ensures p.Config.value.Text.Template == "{PercentageCategory:p0}"
    ensures p.Encodings.Category.None?
    ensures SplitByChannel(p, "Stack")
  {
    var config := RadialConfig(
      if s.plotType == "Donut" then 0.2 else 0.0,
      true,
      "Radial",
      PlotText("{PercentageCategory:p0}", "Center", FontStyle("14pt")));
    Plot(
      PlotName, Some("Pie"), None, Some(config),
      Encodings(
        None,
        SumOfSalesAmount,
        Some([DetailsEncoding(FieldOf("SalesChannel"), "Stack")]),
        Some(ColorEncoding(FieldOf("SalesChannel")))))
  }

  function BuildPiePlotArea(s: ReportStructure): (a: PlotArea)
    ensures a.Legends == Some([ColorLegend])
    ensures AxesBoundTo(a, PlotName)
    ensures forall i :: 0 <= i < |a.Axes| ==> a.Axes[i].Position == Some("None")
    ensures a.Axes[1].Scale == Some("Percentage") && a.Axes[1].Format == Some("p0")
  {
    PlotArea(
      Some([Legend("Color", "Vertical", "Right")]),
      [ Axis("X", [PlotName], Some("None"), None, None, None, None, None, None, None),
        Axis("Y", [PlotName], Some("None"), Some("p0"), Some("Percentage"), None, None, None, None, None) ])
  }

  // Column and bar family

  function BuildColumnBarPlot(s: ReportStructure): (p: Plot)
    ensures SumsSalesAmount(p)
    ensures p.PlotChartType == Some(s.plotType) && p.PlotType.None?
    ensures p.Config.Some? && p.Config.value.SwapConfig?
    ensures p.Config.value.SwapAxes <==> s.plotType == "Bar"
    ensures p.Encodings.Category.Some? && p.Encodings.Category.value.Sort.None?
    ensures ReadsField(p.Encodings.Category.value.Field, "ProductCategory")
    ensures s.grouping ==> SplitByChannel(p, "Cluster")
    ensures !s.grouping ==> Unsplit(p)
  {
    Plot(
      PlotName, Some(s.plotType), None, Some(SwapConfig(s.plotType == "Bar")),
      Encodings(
        Some(CategoryEncoding(FieldOf("ProductCategory"), None, None)),
        SumOfSalesAmount,
        if s.grouping then Some([DetailsEncoding(FieldOf("SalesChannel"), "Cluster")]) else None,
        if s.grouping then Some(ColorEncoding(FieldOf("SalesChannel"))) else None))
  }

  function BuildColumnBarPlotArea(s: ReportStructure): (a: PlotArea)
    ensures a.Legends.Some? <==> s.grouping
    ensures s.grouping ==> a.Legends == Some([ColorLegend])
    ensures AxesBoundTo(a, PlotName)
    ensures a.Axes[0].Format.None? && a.Axes[1].Format == Some("c0")
  {
    PlotArea(
      if s.grouping then Some([Legend("Color", "Vertical", "Right")]) else None,
      [ Axis("X", [PlotName], None, None, None, None, AxisLabelStyle, AxisLine, None, None),
        CurrencyAxis ])
  }

  // Time family

  function BuildTimePlot(s: ReportStructure): (p: Plot)
    ensures SumsSalesAmount(p)
    ensures p.PlotType == Some(s.plotType) && p.PlotChartType.None?
    ensures p.Encodings.Category.Some?
    ensures ReadsField(p.Encodings.Category.value.Field, "SalesDate")
    ensures p.Encodings.Category.value.Sort == Some("Ascending")
    ensures p.Encodings.Category.value.SortingField.Some?
    ensures FieldNameOf(p.Encodings.Category.value.SortingField.value) == Some("SalesDate")
    ensures p.Config.Some? && p.Config.value.LineConfig?
    ensures p.Config.value.LineAspect == "Spline" && p.Config.value.ShowNulls == "Connected"
    ensures p.Config.value.LineStyle == StrokeStyle("Solid", "2pt")
    ensures Unsplit(p)
  {
    Plot(
      PlotName, None, Some(s.plotType),
      Some(LineConfig("Spline", StrokeStyle("Solid", "2pt"), "Connected")),
      Encodings(
        Some(CategoryEncoding(FieldOf("SalesDate"), Some("Ascending"), Some(FieldVal("SalesDate")))),
        SumOfSalesAmount,
        None,
        None))
  }

  function BuildTimePlotArea(s: ReportStructure): (a: PlotArea)
    ensures a.Legends.None?
    ensures AxesBoundTo(a, PlotName)
    ensures a.Axes[0].Format == Some("MM-YYYY") && a.Axes[0].LabelAngle == Some(-45)
    ensures a.Axes[1].Format == Some("c0")
    ensures a.Axes[0].MajorGrid.None? && a.Axes[1].MajorGrid == Some(true)
  {
    PlotArea(
      None,
      [ Axis("X", [PlotName], None, Some("MM-YYYY"), None, Some(-45), AxisLabelStyle, AxisLine, None, None),
        CurrencyAxis ])
  }

  // Dispatchers

  function BuildPlot(s: ReportStructure): (p: Plot)
    ensures PlotFamily(p) == Some(s.dataType)
    ensures SumsSalesAmount(p)
    ensures s.dataType == SalesPerChannel ==>
      && p.PlotChartType == Some("Pie")
      && p.Encodings.Category.None?
      && p.Config.value.Text.Template == "{PercentageCategory:p0}"
      && (p.Config.value.InnerRadius == 0.2 <==> s.plotType == "Donut")
      && (p.Config.value.InnerRadius == 0.0 <==> s.plotType != "Donut")
      && SplitByChannel(p, "Stack")
    ensures s.dataType == SalesPerCategory ==>
      && p.PlotChartType == Some(s.plotType)
      && (p.Config.value.SwapAxes <==> s.plotType == "Bar")
      && p.Encodings.Category.Some? && ReadsField(p.Encodings.Category.value.Field, "ProductCategory")
      && (s.grouping ==> SplitByChannel(p, "Cluster"))
      && (!s.grouping ==> Unsplit(p))
    ensures s.dataType == SalesOverTime ==>
      && p.PlotType == Some(s.plotType)
      && p.Encodings.Category.Some?
      && ReadsField(p.Encodings.Category.value.Field, "SalesDate")
      && p.Encodings.Category.value.Sort == Some("Ascending")
      && p.Encodings.Category.value.SortingField == Some(FieldVal("SalesDate"))
      && p.Config.value.LineAspect == "Spline"
      && p.Config.value.LineStyle == StrokeStyle("Solid", "2pt")
      && p.Config.value.ShowNulls == "Connected"
      && Unsplit(p)
  {
    match s.dataType
    case SalesOverTime => BuildTimePlot(s)
    case SalesPerCategory => BuildColumnBarPlot(s)
    case SalesPerChannel => BuildPiePlot(s)
  }

  function BuildPlotArea(s: ReportStructure): (a: PlotArea)
    ensures AxesBoundTo(a, PlotName)
    ensures s.dataType == SalesOverTime ==>
      && a.Legends.None?
      && a.Axes[0].Format == Some("MM-YYYY") && a.Axes[0].LabelAngle == Some(-45)
      && a.Axes[1].Format == Some("c0")
      && a.Axes[0].MajorGrid.None? && a.Axes[1].MajorGrid == Some(true)
    ensures s.dataType == SalesPerChannel ==>
      && a.Legends == Some([ColorLegend])
      && a.Axes[1].Scale == Some("Percentage") && a.Axes[1].Format == Some("p0")
      && (forall i :: 0 <= i < |a.Axes| ==> a.Axes[i].Position == Some("None"))
    ensures s.dataType == SalesPerCategory ==>
      && (a.Legends.Some? <==> s.grouping)
      && (s.grouping ==> a.Legends == Some([ColorLegend]))
      && a.Axes[0].Format.None? && a.Axes[1].Format == Some("c0")
  {
    match s.dataType
    case SalesOverTime => BuildTimePlotArea(s)
    case SalesPerCategory => BuildColumnBarPlotArea(s)
    case SalesPerChannel => BuildPiePlotArea(s)
  }

  /** Every axis is bound to the plot the chart carries, and a colour legend appears exactly when that plot is coloured. */
  lemma PlotAreaMatchesPlot(s: ReportStructure)
    ensures forall i :: 0 <= i < |BuildPlotArea(s).Axes| ==> BuildPlotArea(s).Axes[i].Plots == [BuildPlot(s).PlotName]
    ensures BuildPlotArea(s).Legends.Some? <==> BuildPlot(s).Encodings.Color.Some?
    ensures BuildPlotArea(s).Legends.Some? ==> BuildPlotArea(s).Legends == Some([ColorLegend])
  {
  }

  // Data artifacts

  /** The embedded data source, over the fetched rows (the fetch itself is a parameter). */
  function GetDataSource(fetched: seq<RawRecord>): (d: DataSource)
    ensures d.Name == "DataSource" && d.ConnectionProperties.DataProvider == "JSONEMBED"
    ensures |d.ConnectionProperties.JsonData| == |fetched|
    ensures forall i :: 0 <= i < |fetched| ==> d.ConnectionProperties.JsonData[i] == NormalizeRow(fetched[i])
  {
    DataSource("DataSource", ConnectionProperties("JSONEMBED", NormalizeRows(fetched)))
  }

  /** The data set: every field of a normalized record, each bound to the column of the same name. */
  function GetDataSet(): (d: DataSet)
    ensures d.Name == "SalesDataSet"
    ensures d.Query == Query("$.*", "DataSource")
    ensures |d.Fields| == |NormalizedFieldNames|
    ensures forall i :: 0 <= i < |d.Fields| ==>
      d.Fields[i].Name == NormalizedFieldNames[i] && d.Fields[i].DataField == NormalizedFieldNames[i]
  {
    var names := NormalizedFieldNames;
    DataSet(
      "SalesDataSet",
      Query("$.*", "DataSource"),
      seq(|names|, i requires 0 <= i < |names| => DataSetField(names[i], names[i])))
  }

  // The report

  /** The report for a selection, over the rows the data endpoint returned. */
  function GenerateReport(s: ReportStructure, fetched: seq<RawRecord>): (r: Report)
    ensures |r.DataSources| == 1 && |r.DataSets| == 1 && |r.Body.ReportItems| == 1
    ensures r.DataSources[0] == GetDataSource(fetched)
    ensures r.DataSets[0] == GetDataSet()
    ensures r.DataSets[0].Query.DataSourceName == r.DataSources[0].Name
    ensures r.Body.ReportItems[0].DataSetName == r.DataSets[0].Name
    ensures |r.Body.ReportItems[0].Plots| == 1
    ensures r.Body.ReportItems[0].Plots[0] == BuildPlot(s)
    ensures r.Body.ReportItems[0].PlotArea == BuildPlotArea(s)
    ensures PlotFamily(r.Body.ReportItems[0].Plots[0]) == Some(s.dataType)
    ensures r.Body.ReportItems[0].Palette == s.palette
    ensures r.Body.ReportItems[0].Header.Title == ChartTitle(s.dataType)
    ensures r.Body.ReportItems[0].Bar.Width == 0.5 <==> s.dataType == SalesPerCategory
    ensures r.Body.ReportItems[0].Bar.Width == 1.0 <==> s.dataType != SalesPerCategory
  {
    var chart := Chart(
      "dvchart", "salesChart", "0in", "0in", "7.5in", "6in",
      "SalesDataSet",
      s.palette,
      BuildPlotArea(s),
      [BuildPlot(s)],
      Header(
        ChartTitle(s.dataType),
        HeaderTextStyle("#3da7a8", "24pt"),
        "Center",
        "Middle",
        Padding("12pt", "6pt")),
      BarSettings(if s.dataType == SalesPerCategory then 0.5 else 1.0));
    Report(
      [GetDataSource(fetched)],
      [GetDataSet()],
      Page("0.5in", "0.5in", "0.5in", "0.5in", "8.5in", "11in"),
      Body([chart], "6in"),
      "7.5in")
  }

  /** What of a selection the builder reads, per family. */
  predicate SameChart(s1: ReportStructure, s2: ReportStructure) {
    && s1.dataType == s2.dataType
    && s1.palette == s2.palette
    && match s1.dataType
       case SalesOverTime => s1.plotType == s2.plotType
       case SalesPerChannel => (s1.plotType == "Donut") == (s2.plotType == "Donut")
       case SalesPerCategory => s1.plotType == s2.plotType && s1.grouping == s2.grouping
  }

  lemma SameChartSamePlot(s1: ReportStructure, s2: ReportStructure)
    requires SameChart(s1, s2)
    ensures BuildPlot(s1) == BuildPlot(s2) && BuildPlotArea(s1) == BuildPlotArea(s2)
  {
  }

  /**
   * Two reports are equal exactly when their selections agree on what the
   * builder reads and the fetched rows normalize alike: grouping matters only
   * for the category family, and of the plot subtype the pie family reads only
   * whether it is "Donut".
   */
  lemma GenerateReportReadsExactly(s1: ReportStructure, s2: ReportStructure, rows1: seq<RawRecord>, rows2: seq<RawRecord>)
    ensures GenerateReport(s1, rows1) == GenerateReport(s2, rows2)
        <==> SameChart(s1, s2) && NormalizeRows(rows1) == NormalizeRows(rows2)
  {
  }

  /** Every subtype the catalog offers for a data type builds a plot of that family showing that subtype. */
  lemma CatalogSubtypesBuild(d: ChartDataType, plotType: string, palette: string, grouping: bool)
    requires plotType in Values(GetPlotTypes(EnumValue(d)))
    ensures PlotFamily(BuildPlot(ReportStructure(d, plotType, palette, grouping))) == Some(d)
    ensures d == SalesOverTime ==> BuildPlot(ReportStructure(d, plotType, palette, grouping)).PlotType == Some(plotType)
    ensures d == SalesPerCategory ==> BuildPlot(ReportStructure(d, plotType, palette, grouping)).PlotChartType == Some(plotType)
    ensures d == SalesPerChannel ==>
      BuildPlot(ReportStructure(d, plotType, palette, grouping)).Config.value.InnerRadius
        == (if plotType == "Donut" then 0.2 else 0.0)
  {
  }

  /** An example: one row, a "Line" chart over time. */
  lemma TimeScenario()
    ensures var r := GenerateReport(
              ReportStructure(SalesOverTime, "Line", "Office", false),
              [RawRecord(100, 50.0, 1, Date(2023, 3, 15))]);
      && r.DataSources[0].ConnectionProperties.JsonData == [NormalizedRecord(50.0, Date(2023, 3, 1), "Store", "Audio")]
      && r.Body.ReportItems[0].Plots[0].Encodings.Category.value.Sort == Some("Ascending")
      && r.Body.ReportItems[0].Plots[0].Encodings.Values[0].Aggregate == "Sum"
      && r.Body.ReportItems[0].PlotArea.Legends.None?
  {
  }

  /** An example: a grouped "Bar" chart on the Dark palette. */
  lemma CategoryScenario(rows: seq<RawRecord>)
    ensures var c := GenerateReport(ReportStructure(SalesPerCategory, "Bar", "Dark", true), rows).Body.ReportItems[0];
      && c.Plots[0].Config == Some(SwapConfig(true))
      && SplitByChannel(c.Plots[0], "Cluster")
      && c.PlotArea.Legends == Some([ColorLegend])
      && c.Palette == "Dark"
      && c.Bar.Width == 0.5
  {
  }
}
