/**
 * The plot catalog of the chart builder: the closed set of chart data types,
 * the palettes and data types offered by the form, and the plot subtypes each
 * data type allows (src/app/data.ts).
 */
module Catalog {
  import opened Wrappers

  /** The three chart data types. In the source this is a string enum. */
  datatype ChartDataType = SalesOverTime | SalesPerChannel | SalesPerCategory

  /** The string an enum member is at run time. */
  function EnumValue(d: ChartDataType): string {
    match d
    case SalesOverTime => "SalesOverTime"
    case SalesPerChannel => "SalesPerChannel"
    case SalesPerCategory => "SalesPerCategory"
  }

  /** The enum member a run-time string stands for, if any: the inverse of EnumValue. */
  function ParseDataType(s: string): (r: Option<ChartDataType>)
    ensures r.Some? ==> EnumValue(r.value) == s
    ensures forall d :: EnumValue(d) == s ==> r == Some(d)
  {
    if s == "SalesOverTime" then Some(SalesOverTime)
    else if s == "SalesPerChannel" then Some(SalesPerChannel)
    else if s == "SalesPerCategory" then Some(SalesPerCategory)
    else None
  }

  /** An option of a select box: a value and an optional display label (`label` in the source). */
  datatype DataItem = DataItem(value: string, text: Option<string>)

  /** The values of a list of options, in order. */
  function Values(items: seq<DataItem>): (r: seq<string>)
    ensures |r| == |items|
    ensures forall i :: 0 <= i < |items| ==> r[i] == items[i].value
  {
    if items == [] then [] else [items[0].value] + Values(items[1..])
  }

  const ChartPalettes: seq<DataItem> := [
    DataItem("Office", None),
    DataItem("Light", None),
    DataItem("Dark", None),
    DataItem("Blue", None),
    DataItem("Orange", None)
  ]

  const ChartDataTypes: seq<DataItem> := [
    DataItem(EnumValue(SalesOverTime), Some("Sales over time")),
    DataItem(EnumValue(SalesPerChannel), Some("Sales per channel")),
    DataItem(EnumValue(SalesPerCategory), Some("Sales per category"))
  ]

  const TimePlotTypes: seq<DataItem> := [DataItem("Line", None), DataItem("Area", None)]

  const CategoryPlotTypes: seq<DataItem> := [DataItem("Bar", None), DataItem("Column", None)]

  const ChannelPlotTypes: seq<DataItem> := [DataItem("Pie", None), DataItem("Donut", None)]

  /**
   * The plot subtypes offered for a data type. The argument is the run-time
   * string the form hands over, so a string outside the enum reaches the
   * empty default branch.
   */
  function GetPlotTypes(dataType: string): (r: seq<DataItem>)
    ensures r == [] <==> ParseDataType(dataType).None?
    ensures ParseDataType(dataType) == Some(SalesOverTime) ==> Values(r) == ["Line", "Area"]
    ensures ParseDataType(dataType) == Some(SalesPerChannel) ==> Values(r) == ["Pie", "Donut"]
    ensures ParseDataType(dataType) == Some(SalesPerCategory) ==> Values(r) == ["Bar", "Column"]
  {
    if dataType == EnumValue(SalesOverTime) then TimePlotTypes
    else if dataType == EnumValue(SalesPerChannel) then ChannelPlotTypes
    else if dataType == EnumValue(SalesPerCategory) then CategoryPlotTypes
    else []
  }

  /** The data type owning a plot subtype, read from the three lists; an independent reverse lookup. */
  function DataTypeOfPlotType(plotType: string): Option<ChartDataType> {
    if plotType in Values(TimePlotTypes) then Some(SalesOverTime)
    else if plotType in Values(ChannelPlotTypes) then Some(SalesPerChannel)
    else if plotType in Values(CategoryPlotTypes) then Some(SalesPerCategory)
    else None
  }

  /** Every member of the closed enum has a non-empty list: the default branch is never taken for it. */
  lemma EveryDataTypeHasPlotTypes(d: ChartDataType)
    ensures |GetPlotTypes(EnumValue(d))| == 2
  {
  }

  /** The three subtype lists share no value. */
  lemma PlotTypeListsDisjoint()
    ensures forall p :: p in Values(TimePlotTypes) ==> p !in Values(ChannelPlotTypes) && p !in Values(CategoryPlotTypes)
    ensures forall p :: p in Values(ChannelPlotTypes) ==> p !in Values(CategoryPlotTypes)
  {
  }

  /** A plot subtype is offered for exactly one data type, so it determines that data type. */
  lemma PlotTypeDeterminesDataType(d: ChartDataType, plotType: string)
    ensures plotType in Values(GetPlotTypes(EnumValue(d))) <==> DataTypeOfPlotType(plotType) == Some(d)
  {
  }

  /** The palettes are Office, Light, Dark, Blue and Orange in that order, and the form default is one of them. */
  lemma PalettesInOrder()
    ensures Values(ChartPalettes) == ["Office", "Light", "Dark", "Blue", "Orange"]
    ensures "Office" in Values(ChartPalettes)
  {
  }

  /** The data-type options list each enum member exactly once. */
  lemma DataTypesListEachMemberOnce(d: ChartDataType)
    ensures |ChartDataTypes| == 3
    ensures exists i :: 0 <= i < |ChartDataTypes| && ChartDataTypes[i].value == EnumValue(d)
    ensures forall i, j :: 0 <= i < j < |ChartDataTypes| ==> ChartDataTypes[i].value != ChartDataTypes[j].value
    ensures forall i :: 0 <= i < |ChartDataTypes| ==> ParseDataType(ChartDataTypes[i].value).Some?
  {
    match d
    case SalesOverTime => assert ChartDataTypes[0].value == EnumValue(d);
    case SalesPerChannel => assert ChartDataTypes[1].value == EnumValue(d);
    case SalesPerCategory => assert ChartDataTypes[2].value == EnumValue(d);
  }
}
