/**
 * The selection form of the app component: the form controls with their
 * enabled flags, the offered plot subtypes, the designer/preview mode, and
 * the handlers that change them (src/app/app.component.ts).
 */
module SelectionForm {
  import opened Wrappers
  import opened Catalog
  import ReportBuilder

  /** Which view the app shows: the form (designer) or the report viewer. */
  datatype ViewMode = Design | Preview

  /** Everything the component and its form hold, as one value. */
  datatype FormState = FormState(
    mode: ViewMode,
    plotTypes: seq<DataItem>,
    dataType: string,
    plotType: string,
    plotTypeEnabled: bool,
    grouping: bool,
    groupingEnabled: bool,
    palette: string)

  /** The state when the component is created. */
  const InitialState: FormState := FormState(Design, [], "", "", false, false, false, "Office")

  /**
   * The invariant the handlers keep: the offered subtypes are those of the
   * chosen data type, a disabled control holds its reset value, and grouping
   * is enabled only for the category data type.
   */
  predicate Consistent(st: FormState) {
    && st.plotTypes == GetPlotTypes(st.dataType)
    && (!st.plotTypeEnabled ==> st.plotType == "")
    && (!st.groupingEnabled ==> !st.grouping)
    && (st.groupingEnabled ==> st.dataType == EnumValue(SalesPerCategory))
  }

  /**
   * The data-type control takes the value `val` and its change handler runs:
   * new subtype list, subtype reset and enabled, grouping reset and enabled
   * only for the category data type.
   */
  function DataTypeChanged(st: FormState, val: string): (r: FormState)
    ensures Consistent(r)
  {
    st.(
      dataType := val,
      plotTypes := GetPlotTypes(val),
      plotType := "",
      plotTypeEnabled := true,
      grouping := false,
      groupingEnabled := val == EnumValue(SalesPerCategory))
  }

  /** The user picks a plot subtype; a disabled control takes no input. */
  function PlotTypeChosen(st: FormState, val: string): (r: FormState)
    ensures Consistent(st) ==> Consistent(r)
    ensures r.plotType == (if st.plotTypeEnabled then val else st.plotType)
    ensures r.(plotType := st.plotType) == st
  {
    if st.plotTypeEnabled then st.(plotType := val) else st
  }

  /** The user flips the grouping toggle; a disabled control takes no input. */
  function GroupingChosen(st: FormState, val: bool): (r: FormState)
    ensures Consistent(st) ==> Consistent(r)
    ensures r.grouping == (if st.groupingEnabled then val else st.grouping)
    ensures r.(grouping := st.grouping) == st
  {
    if st.groupingEnabled then st.(grouping := val) else st
  }

  /** The user picks a palette. */
  function PaletteChosen(st: FormState, val: string): (r: FormState)
    ensures Consistent(st) ==> Consistent(r)
    ensures r.palette == val && r.(palette := st.palette) == st
  {
    st.(palette := val)
  }

  lemma InitialStateFacts()
    ensures Consistent(InitialState)
    ensures InitialState.mode == Design && InitialState.plotTypes == []
    ensures InitialState.dataType == "" && InitialState.plotType == "" && !InitialState.plotTypeEnabled
    ensures !InitialState.grouping && !InitialState.groupingEnabled
    ensures InitialState.palette == "Office" && InitialState.palette in Values(ChartPalettes)
  {
  }

  /** What a data-type change sets, in the source's own terms. */
  lemma DataTypeChangedFacts(st: FormState, val: string)
    ensures DataTypeChanged(st, val).dataType == val
    ensures DataTypeChanged(st, val).plotTypes == GetPlotTypes(val)
    ensures DataTypeChanged(st, val).plotType == "" && DataTypeChanged(st, val).plotTypeEnabled
    ensures !DataTypeChanged(st, val).grouping
    ensures DataTypeChanged(st, val).groupingEnabled <==> ParseDataType(val) == Some(SalesPerCategory)
    ensures DataTypeChanged(st, val).palette == st.palette && DataTypeChanged(st, val).mode == st.mode
  {
  }

  /**
   * A data-type change keeps only the palette and the mode of the state it
   * starts from; nothing else of that state survives.
   */
  lemma DataTypeChangedForgets(st1: FormState, st2: FormState, val: string)
    ensures DataTypeChanged(st1, val) == DataTypeChanged(st2, val)
        <==> st1.palette == st2.palette && st1.mode == st2.mode
  {
  }

  /** Handling the same data-type value twice is handling it once. */
  lemma DataTypeChangedIdempotent(st: FormState, val: string)
    ensures DataTypeChanged(DataTypeChanged(st, val), val) == DataTypeChanged(st, val)
  {
  }

  /** The selection a submit hands to the builder, when the chosen data type is an enum member. */
  function Selection(st: FormState): (r: Option<ReportBuilder.ReportStructure>)
    ensures r.Some? <==> ParseDataType(st.dataType).Some?
    ensures r.Some? ==> EnumValue(r.value.dataType) == st.dataType
    ensures r.Some? ==> r.value.plotType == st.plotType && r.value.palette == st.palette && r.value.grouping == st.grouping
  {
    match ParseDataType(st.dataType)
    case Some(d) => Some(ReportBuilder.ReportStructure(d, st.plotType, st.palette, st.grouping))
    case None => None
  }

  /** In a consistent state, a selection with grouping on is always a category selection. */
  lemma GroupingOnlyForCategories(st: FormState)
    requires Consistent(st)
    requires Selection(st).Some? && Selection(st).value.grouping
    ensures Selection(st).value.dataType == SalesPerCategory
  {
  }

  /** A selection made after choosing a data type other than the category one never groups. */
  lemma NonCategoryNeverGroups(st: FormState, val: string, plotType: string, grouping: bool, palette: string)
    requires ParseDataType(val).Some? && ParseDataType(val) != Some(SalesPerCategory)
    ensures var st' := PaletteChosen(GroupingChosen(PlotTypeChosen(DataTypeChanged(st, val), plotType), grouping), palette);
      Selection(st').Some? && !Selection(st').value.grouping
  {
  }

  /** The app component, whose handlers update its fields in place. */
  class AppComponent {
    var Mode: ViewMode
    var PlotTypes: seq<DataItem>
    var dataType: string
    var plotType: string
    var plotTypeEnabled: bool
    var grouping: bool
    var groupingEnabled: bool
    var palette: string

    /** The component's fields as one value. */
    function State(): FormState
      reads this
    {
      FormState(Mode, PlotTypes, dataType, plotType, plotTypeEnabled, grouping, groupingEnabled, palette)
    }

    ghost predicate Valid()
      reads this
    {
      Consistent(State())
    }

    constructor ()
      ensures State() == InitialState
      ensures Valid()
    {
      Mode := Design;
      PlotTypes := [];
      dataType := "";
      plotType := "";
      plotTypeEnabled := false;
      grouping := false;
      groupingEnabled := false;
      palette := "Office";
    }

    /** The data-type control takes `val`; its change subscription then resets the dependent controls. */
    method OnDataTypeChange(val: string)
      modifies this
      ensures State() == DataTypeChanged(old(State()), val)
      ensures Valid()
      ensures Mode == old(Mode) && palette == old(palette)
    {
      dataType := val;
      PlotTypes := GetPlotTypes(val);
      plotType := "";
      plotTypeEnabled := true;
      grouping := false;
      if val == EnumValue(SalesPerCategory) {
        groupingEnabled := true;
      } else {
        groupingEnabled := false;
      }
    }

    method ChoosePlotType(val: string)
      requires Valid()
      modifies this
      ensures State() == PlotTypeChosen(old(State()), val)
      ensures Valid()
    {
      if plotTypeEnabled {
        plotType := val;
      }
    }

    method ChooseGrouping(val: bool)
      requires Valid()
      modifies this
      ensures State() == GroupingChosen(old(State()), val)
      ensures Valid()
    {
      if groupingEnabled {
        grouping := val;
      }
    }

    method ChoosePalette(val: string)
      requires Valid()
      modifies this
      ensures State() == PaletteChosen(old(State()), val)
      ensures Valid()
    {
      palette := val;
    }

    /** Submitting the form switches to the preview; nothing else changes. */
    method OnSubmit()
      modifies this
      ensures State() == old(State()).(mode := Preview)
      ensures Valid() <==> old(Valid())
    {
      Mode := Preview;
    }

    /** The viewer's "Designer" toolbar button switches back to the form; nothing else changes. */
    method OpenDesigner()
      modifies this
      ensures State() == old(State()).(mode := Design)
      ensures Valid() <==> old(Valid())
    {
      Mode := Design;
    }
  }
}
