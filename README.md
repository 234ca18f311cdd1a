# Chart builder report descriptor — a Dafny model

This project models the core of a small Angular front end that lets a user
choose a chart data type (sales over time, per channel, per category), a plot
subtype, a grouping flag and a colour palette, and then builds the declarative
report descriptor an embedded reporting engine renders. Four parts are
modelled:

- **Plot catalog** (`catalog.dfy`, module `Catalog`): the closed `ChartDataType`
  enum, the palette and data-type option lists, the three plot-subtype lists and
  `getPlotTypes`.
- **Row normalizer** (`row_normalizer.dfy`, module `RowNormalizer`): the channel
  lookup, the first-match product-category bucketing, the truncation of a date
  to the first of its month, and the reshape of every fetched row.
- **Structure builder** (`rdl.dfy`, module `Rdl`, and `report_builder.dfy`,
  module `ReportBuilder`): the descriptor as datatypes (one `PlotConfig`
  variant per chart family; `Option` for `Legends`, `Details`, `Color` and
  `Config`), `fieldVal` with an inverse parser, the three plot builders and
  the three plot-area builders, the two dispatchers, the data source, the data
  set and `generateReport` over the rows the endpoint returned.
- **Selection form** (`selection_form.dfy`, module `SelectionForm`): the
  component's fields, the form controls' values and enabled flags, the
  data-type change handler, submit and the designer button, as a class
  `AppComponent` whose methods are specified by pure transitions on a
  `FormState` value; `Consistent` is the invariant they keep.

The central result is `ReportBuilder.GenerateReportReadsExactly`: two
generated reports are equal if and only if the two selections have the same
data type and palette and agree on what that family's builder reads (the
subtype for time and category charts, only "is it Donut" for pie charts, the
grouping flag only for category charts), and the fetched rows normalize to
the same sequence.

Some behaviours of the code are easy to misread; the model follows the code:

- The builder has no check that the plot subtype belongs to the data type. A
  mismatched pair goes through: the pie builder always emits "Pie", and the
  column/bar builder copies the subtype verbatim.
- The builder has no failure path for a data type outside the enum. The
  dispatchers have no default case. The model takes the closed enum, so
  `getChartTitle`'s default "Report" branch cannot be reached and is not written.
- The time plot sets a property named `PlotType`, not `PlotChartType` as the
  other two families do. `Rdl.Plot` has both fields, and the time plot leaves
  `PlotChartType` unset.
- Submitting only switches the mode to "Preview". The report is built later,
  when the viewer initialises, from the form's value at that moment
  (src/app/app.component.ts:83-93). `SelectionForm.Selection` is that value.

## Model

| member | source | states |
|---|---|---|
| `Catalog.ParseDataType` | src/app/data.ts:1-5 | the run-time string of each enum member parses back to that member and nothing else parses |
| `Catalog.GetPlotTypes` | src/app/data.ts:38-49 | the list is empty exactly for strings outside the enum; it is [Line, Area], [Pie, Donut] or [Bar, Column] for the three members |
| `Catalog.EveryDataTypeHasPlotTypes` | src/app/data.ts:38-49 | every enum member gets a two-element list, so the default branch is unreachable for enum values |
| `Catalog.PlotTypeListsDisjoint` | src/app/data.ts:26-36 | the time, channel and category subtype lists are pairwise disjoint |
| `Catalog.PlotTypeDeterminesDataType` | src/app/data.ts:26-45 | a subtype is offered for a data type exactly when the reverse lookup of the subtype gives that data type |
| `Catalog.PalettesInOrder` | src/app/data.ts:12-18 | the palettes are Office, Light, Dark, Blue, Orange in that order, and the form default Office is among them |
| `Catalog.DataTypesListEachMemberOnce` | src/app/data.ts:20-24 | the data-type options have three distinct values, every enum member among them, each an enum value |
| `RowNormalizer.SalesChannel` | src/app/report.service.ts:28-41 | keys 1 to 4 map to Store, Online, Catalog, Reseller; the label is "Unknown" exactly for every other key |
| `RowNormalizer.SalesChannelInjective` | src/app/report.service.ts:28-41 | two keys with the same label, one of them known, are the same key |
| `RowNormalizer.ProductCategory` | src/app/report.service.ts:43-49 | the category is always one of the five labels; which one is given by ProductCategoryIsFirstMatch |
| `RowNormalizer.BucketIndex` | src/app/report.service.ts:43-49 | first-match bucketing: the key is below the bound at the index and at or above every earlier bound |
| `RowNormalizer.BucketIndexMonotone` | src/app/report.service.ts:43-49 | first-match bucketing is non-decreasing in the key, for any bounds |
| `RowNormalizer.ProductCategoryIsFirstMatch` | src/app/report.service.ts:43-49 | the chain of `<` tests equals first-match bucketing over 116, 338, 944, 1316 with the five labels |
| `RowNormalizer.ProductCategoryRanges` | src/app/report.service.ts:43-49 | each label holds exactly on its half-open key range; keys below 116, negative ones included, are Audio |
| `RowNormalizer.ProductCategoryBoundaries` | src/app/report.service.ts:43-49 | 115/116, 337/338, 943/944 and 1315/1316 fall on either side of their bound |
| `RowNormalizer.ProductCategoryMonotone` | src/app/report.service.ts:43-49 | a larger product key never falls in an earlier category bucket |
| `RowNormalizer.TruncateToMonth` | src/app/report.service.ts:82-83 | the result keeps year and month, has day 1, and is a valid date when the input is |
| `RowNormalizer.TruncateIdempotent` | src/app/report.service.ts:82-83 | truncating a truncated date changes nothing |
| `RowNormalizer.TruncateIdentifiesMonth` | src/app/report.service.ts:81-83 | two dates truncate alike exactly when they share year and month |
| `RowNormalizer.NormalizeRow` | src/app/report.service.ts:80-89 | the amount is copied, year and month are kept with day 1, the channel is a known label or "Unknown", the category one of the five labels |
| `RowNormalizer.NormalizeRows` | src/app/report.service.ts:78-90 | one output row per input row, the i-th the reshape of the i-th input |
| `RowNormalizer.NormalizeRowsAppend` | src/app/report.service.ts:78-90 | the reshape distributes over concatenation: no reordering, filtering or merging |
| `RowNormalizer.NormalizedRowFacts` | src/app/report.service.ts:80-89 | each output copies SalesAmount, keeps year and month, has day 1, carries both labels, and is already truncated |
| `RowNormalizer.NormalizeExampleRow` | src/app/report.service.ts:78-90 | product 100, amount 50, channel 1 on 2023-03-15 becomes amount 50, 2023-03-01, Store, Audio |
| `Rdl.FieldVal` | src/app/report.service.ts:24-26 | the expression is "=Fields!", then the field name, then ".Value", and splits back into exactly those three parts |
| `Rdl.FieldNameOf` | src/app/report.service.ts:24-26 | a parsed field name rebuilds, through fieldVal, the expression it was parsed from |
| `Rdl.FieldValRoundTrip` | src/app/report.service.ts:24-26 | parsing a fieldVal expression gives back its field name |
| `Rdl.FieldValInjective` | src/app/report.service.ts:24-26 | distinct field names give distinct expressions |
| `ReportBuilder.ChartTitle` | src/app/report.service.ts:51-62 | the title of a data type is the label the form's option list gives that data type |
| `ReportBuilder.DataTypeLabelsAreTitles` | src/app/report.service.ts:51-62 | each data-type option's label is the chart title of its data type |
| `ReportBuilder.ChartTitleInjective` | src/app/report.service.ts:51-62 | distinct data types get distinct titles |
| `ReportBuilder.BuildPiePlot` | src/app/report.service.ts:128-168 | plot "Plot", chart type always Pie, one Sum of SalesAmount; inner radius 0.2 iff subtype Donut and 0 otherwise; Stack details and colour on SalesChannel always |
| `ReportBuilder.BuildPiePlotArea` | src/app/report.service.ts:170-195 | exactly one Color/Vertical/Right legend; hidden X and Y axes bound to "Plot"; Y scaled as percentage |
| `ReportBuilder.BuildColumnBarPlot` | src/app/report.service.ts:197-234 | chart type is the subtype verbatim; axes swapped iff Bar; category on ProductCategory; Cluster details and colour on SalesChannel iff grouping |
| `ReportBuilder.BuildColumnBarPlotArea` | src/app/report.service.ts:236-285 | a legend, the colour legend, iff grouping; X and Y bound to "Plot"; Y formatted c0 |
| `ReportBuilder.BuildTimePlot` | src/app/report.service.ts:287-322 | subtype in PlotType; category on SalesDate sorted ascending by SalesDate; spline, solid 2pt, nulls connected; no details, no colour |
| `ReportBuilder.BuildTimePlotArea` | src/app/report.service.ts:324-362 | no legend; X formatted MM-YYYY at -45 degrees; Y formatted c0 with the only major grid |
| `ReportBuilder.BuildPlot` | src/app/report.service.ts:375-384 | the plot's family is the selection's data type and it sums SalesAmount; pie: always Pie, no category, percentage label, inner radius 0.2 iff Donut else 0, Stack split by channel; category: subtype verbatim, axes swapped iff Bar, Cluster split and colour by channel iff grouping, none otherwise; time: subtype in PlotType, ascending SalesDate category sorted on SalesDate, spline with a solid 2pt line and connected nulls, unsplit |
| `ReportBuilder.BuildPlotArea` | src/app/report.service.ts:364-373 | an X and a Y axis, both bound to "Plot"; time: no legend, X formatted MM-YYYY at -45 degrees, Y formatted c0 with the only major grid; pie: exactly the colour legend, hidden axes, Y formatted p0 and scaled as percentage; category: the colour legend iff grouping, no legend otherwise, X unformatted, Y formatted c0 |
| `ReportBuilder.PlotAreaMatchesPlot` | src/app/report.service.ts:364-384 | every axis names the chart's plot, and a legend appears exactly when the plot has a colour encoding |
| `ReportBuilder.GetDataSource` | src/app/report.service.ts:78-101 | an embedded JSON source named DataSource holding one reshaped row per fetched row, in order |
| `ReportBuilder.GetDataSet` | src/app/report.service.ts:108-126 | data set SalesDataSet over DataSource with exactly the four normalized fields, each Name equal to its DataField |
| `ReportBuilder.GenerateReport` | src/app/report.service.ts:386-438 | one source, one set, one chart with one plot; set and chart reference them by name; plot and area from the same branch; palette verbatim; title by data type; bar width 0.5 iff category, else 1 |
| `ReportBuilder.SameChartSamePlot` | src/app/report.service.ts:364-384 | selections that agree on what the builders read get the same plot and plot area |
| `ReportBuilder.GenerateReportReadsExactly` | src/app/report.service.ts:386-438 | two reports are equal iff the selections agree on data type, palette and the family's read inputs, and the rows normalize alike |
| `ReportBuilder.CatalogSubtypesBuild` | src/app/report.service.ts:375-384 | each subtype the catalog offers builds a plot of its data type's family that shows that subtype |
| `ReportBuilder.TimeScenario` | src/app/report.service.ts:386-438 | the one-row Line scenario embeds the reshaped row, sorts ascending, sums, and has no legend |
| `ReportBuilder.CategoryScenario` | src/app/report.service.ts:386-438 | a grouped Bar on Dark swaps axes, clusters and colours by channel, has the legend, palette Dark, bar width 0.5 |
| `SelectionForm.DataTypeChanged` | src/app/app.component.ts:34-45 | the state after a data-type change is consistent, whatever it started from |
| `SelectionForm.PlotTypeChosen` | src/app/app.component.ts:28 | the subtype takes the user's value only when enabled; consistency is kept; every other field is unchanged |
| `SelectionForm.GroupingChosen` | src/app/app.component.ts:29 | grouping takes the user's value only when enabled; consistency is kept; every other field is unchanged |
| `SelectionForm.PaletteChosen` | src/app/app.component.ts:30 | the palette becomes the user's value, every other field is unchanged, and consistency is kept |
| `SelectionForm.InitialStateFacts` | src/app/app.component.ts:22-31 | Design mode, no subtypes, empty data type, empty disabled subtype, false disabled grouping, palette Office; consistent |
| `SelectionForm.DataTypeChangedFacts` | src/app/app.component.ts:34-45 | the data type becomes the new value; subtypes from the catalog; subtype "" and enabled; grouping false, enabled iff the new type is the category type; palette and mode kept |
| `SelectionForm.DataTypeChangedForgets` | src/app/app.component.ts:34-45 | two states give the same result iff they agree on palette and mode |
| `SelectionForm.DataTypeChangedIdempotent` | src/app/app.component.ts:34-45 | handling the same value twice equals handling it once |
| `SelectionForm.Selection` | src/app/app.component.ts:85 | a selection exists exactly when the chosen data type is an enum value, and carries that data type together with the form's subtype, palette and grouping values |
| `SelectionForm.GroupingOnlyForCategories` | src/app/app.component.ts:39-44 | in a consistent state a selection with grouping on is a category selection |
| `SelectionForm.NonCategoryNeverGroups` | src/app/app.component.ts:39-44 | after choosing a non-category data type, whatever subtype, grouping and palette the user then picks, the selection does not group |
| `SelectionForm.AppComponent.constructor` | src/app/app.component.ts:22-31 | the fields start in the initial state |
| `SelectionForm.AppComponent.OnDataTypeChange` | src/app/app.component.ts:34-45 | the new fields are DataTypeChanged of the old ones; Valid holds; mode and palette unchanged |
| `SelectionForm.AppComponent.ChoosePlotType` | src/app/app.component.ts:28 | the new fields are PlotTypeChosen of the old ones; Valid is kept |
| `SelectionForm.AppComponent.ChooseGrouping` | src/app/app.component.ts:29 | the new fields are GroupingChosen of the old ones; Valid is kept |
| `SelectionForm.AppComponent.ChoosePalette` | src/app/app.component.ts:30 | the new fields are PaletteChosen of the old ones; Valid is kept |
| `SelectionForm.AppComponent.OnSubmit` | src/app/app.component.ts:79-82 | mode becomes Preview and nothing else changes |
| `SelectionForm.AppComponent.OpenDesigner` | src/app/app.component.ts:53-55 | mode becomes Design and nothing else changes |

## Left out

- The HTTP fetch, its URL and filter, the JSON decoding of the response and all async plumbing: `GenerateReport` and `GetDataSource` take the fetched records as a parameter.
- `JSON.stringify` in `ConnectString`: the model stores the rows themselves in `JsonData` instead of `"jsondata="` followed by their JSON text.
- JavaScript `Date` parsing of `DateKey`, time of day and time zones: a date is a (year, month, day) triple, and `setDate(1)` sets the day.
- Floating point: `SalesAmount` is a `real`, and the product and channel keys are integers.
- The number formatting of `inches` and `points`: sizes, margins, colours and font sizes are fixed literal strings ("7.5in", "2pt", "#ccc", and so on).
- The Angular framework: FormBuilder, validators, the `valueChanges` subscription, and the fact that `chartForm.value` omits disabled controls. The model's selection carries the grouping control's own value. `Consistent` keeps that value false whenever the control is disabled, so the two agree.
- The HTML template is not part of this model. User input into the three controls is modelled as `PlotTypeChosen`, `GroupingChosen` and `PaletteChosen`, and a disabled control ignores input.
- The viewer toolbar layout, `reportViewer.open` and its resource locator are not modelled: they belong to the reporting engine's own library.
- A data type outside the enum reaching `generateReport` is not modelled. The dispatchers would return nothing, and the builder here takes the closed enum.
- The reporting engine's own types are mirrored only in the fields the service sets.
