/**
 * The report descriptor handed to the reporting engine: only the nodes and
 * fields the report service sets, as datatypes. A field the source may leave
 * unset is an Option.
 */
module Rdl {
  import opened Wrappers
  import RowNormalizer

  const FieldPrefix: string := "=Fields!"
  const FieldSuffix: string := ".Value"

  /** The expression that reads a data-set field (fieldVal in the source). */
  function FieldVal(fieldName: string): (r: string)
    ensures |r| == |FieldPrefix| + |fieldName| + |FieldSuffix|
    ensures r[..|FieldPrefix|] == FieldPrefix && r[|r| - |FieldSuffix|..] == FieldSuffix
    ensures r[|FieldPrefix|..|r| - |FieldSuffix|] == fieldName
  {
    FieldPrefix + fieldName + FieldSuffix
  }

  /** The field an expression reads, when it has the form FieldVal produces. */
  function FieldNameOf(expr: string): (r: Option<string>)
    ensures r.Some? ==> FieldVal(r.value) == expr
  {
    if |expr| >= |FieldPrefix| + |FieldSuffix|
       && expr[..|FieldPrefix|] == FieldPrefix
       && expr[|expr| - |FieldSuffix|..] == FieldSuffix
    then
      var name := expr[|FieldPrefix|..|expr| - |FieldSuffix|];
      assert expr == FieldPrefix + name + FieldSuffix;
      Some(name)
    else None
  }

  /** FieldNameOf recovers the field name from every expression FieldVal builds. */
  lemma FieldValRoundTrip(fieldName: string)
    ensures FieldNameOf(FieldVal(fieldName)) == Some(fieldName)
  {
  }

  /** Distinct field names give distinct expressions. */
  lemma FieldValInjective(a: string, b: string)
    requires FieldVal(a) == FieldVal(b)
    ensures a == b
  {
    FieldValRoundTrip(a);
    FieldValRoundTrip(b);
  }

  // Plot encodings

  /** `{ Value: [...] }`: the expressions an encoding reads. */
  datatype FieldRef = FieldRef(Value: seq<string>)

  /** The reference reads exactly one expression, and that expression reads the field `name`. */
  predicate ReadsField(f: FieldRef, name: string) {
    |f.Value| == 1 && FieldNameOf(f.Value[0]) == Some(name)
  }

  datatype ValuesEncoding = ValuesEncoding(Field: FieldRef, Aggregate: string)

  datatype DetailsEncoding = DetailsEncoding(Field: FieldRef, Group: string)

  datatype ColorEncoding = ColorEncoding(Field: FieldRef)

  datatype CategoryEncoding = CategoryEncoding(Field: FieldRef, Sort: Option<string>, SortingField: Option<string>)

  datatype Encodings = Encodings(
    Category: Option<CategoryEncoding>,
    Values: seq<ValuesEncoding>,
    Details: Option<seq<DetailsEncoding>>,
    Color: Option<ColorEncoding>)

  // Plot configuration, one variant per chart family

  datatype FontStyle = FontStyle(FontSize: string)

  datatype PlotText = PlotText(Template: string, TextPosition: string, Style: FontStyle)

  datatype StrokeStyle = StrokeStyle(Style: string, Width: string)

  datatype PlotConfig =
    | RadialConfig(InnerRadius: real, Radial: bool, AxisMode: string, Text: PlotText)
    | SwapConfig(SwapAxes: bool)
    | LineConfig(LineAspect: string, LineStyle: StrokeStyle, ShowNulls: string)

  /**
   * One plot of a chart. The pie and column/bar builders set PlotChartType;
   * the time builder sets a property named PlotType instead.
   */
  datatype Plot = Plot(
    PlotName: string,
    PlotChartType: Option<string>,
    PlotType: Option<string>,
    Config: Option<PlotConfig>,
    Encodings: Encodings)

  // Plot area

  datatype Legend = Legend(LegendType: string, Orientation: string, Position: string)

  datatype Border = Border(Color: string, Width: string, Style: string)

  datatype BorderStyle = BorderStyle(Border: Border)

  datatype LabelStyle = LabelStyle(Color: string)

  datatype Axis = Axis(
    AxisType: string,
    Plots: seq<string>,
    Position: Option<string>,
    Format: Option<string>,
    Scale: Option<string>,
    LabelAngle: Option<int>,
    LabelStyle: Option<LabelStyle>,
    LineStyle: Option<BorderStyle>,
    MajorGrid: Option<bool>,
    MajorGridStyle: Option<BorderStyle>)

  datatype PlotArea = PlotArea(Legends: Option<seq<Legend>>, Axes: seq<Axis>)

  // Chart

  datatype HeaderTextStyle = HeaderTextStyle(Color: string, FontSize: string)

  datatype Padding = Padding(PaddingTop: string, PaddingBottom: string)

  datatype Header = Header(Title: string, TextStyle: HeaderTextStyle, HAlign: string, VAlign: string, Style: Padding)

  datatype BarSettings = BarSettings(Width: real)

  datatype Chart = Chart(
    Type: string,
    Name: string,
    Top: string,
    Left: string,
    Width: string,
    Height: string,
    DataSetName: string,
    Palette: string,
    PlotArea: PlotArea,
    Plots: seq<Plot>,
    Header: Header,
    Bar: BarSettings)

  // Data artifacts and the report

  /**
   * The connection of an embedded JSON data source. The source's ConnectString
   * is "jsondata=" followed by the JSON text of the rows; the model keeps the
   * rows themselves.
   */
  datatype ConnectionProperties = ConnectionProperties(DataProvider: string, JsonData: seq<RowNormalizer.NormalizedRecord>)

  datatype DataSource = DataSource(Name: string, ConnectionProperties: ConnectionProperties)

  datatype Query = Query(CommandText: string, DataSourceName: string)

  datatype DataSetField = DataSetField(Name: string, DataField: string)

  datatype DataSet = DataSet(Name: string, Query: Query, Fields: seq<DataSetField>)

  datatype Page = Page(
    TopMargin: string,
    BottomMargin: string,
    LeftMargin: string,
    RightMargin: string,
    PageWidth: string,
    PageHeight: string)

  datatype Body = Body(ReportItems: seq<Chart>, Height: string)

  datatype Report = Report(DataSources: seq<DataSource>, DataSets: seq<DataSet>, Page: Page, Body: Body, Width: string)
}
