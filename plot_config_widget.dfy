/**
 * The column-selection widget of the scatter (XY) plot dialog: a CSV loader, an
 * X combo box and a Y combo box. Whether a plot is possible, and what the
 * dialog receives, are decided from the loaded dataset and the two selections.
 */
module PlotConfig {
  import opened Wrappers
  import opened Datasets
  import opened CsvLoading
  import opened Widgets

  /** What the range label says, and so whether a plot is possible. */
  datatype RangeStatus =
    | NotLoaded                                        // "Load CSV and select columns"
    | SelectColumns                                    // "Select columns to view data range"
    | Plottable(xRange: ColumnRange, yRange: ColumnRange)
    | NotNumericColumns(columns: seq<string>)          // "Column(s) ... not numeric"

  /**
   * `display_column_range`: the label shown for dataset `df`, an X combo box
   * holding `xCount` items and the selections `x` and `y`. A plot is possible
   * exactly when both selected columns are present and numeric; otherwise the
   * message lists the selected columns without a range, X before Y.
   */
  function ColumnRangeStatus(df: Option<Dataset>, xCount: nat, x: string, y: string): (r: RangeStatus)
    ensures r.NotLoaded? <==> df.None? || xCount == 0
    ensures r.SelectColumns? <==> df.Some? && xCount > 0 && (x == "" || y == "")
    ensures r.Plottable? <==> (df.Some? && xCount > 0 && x != "" && y != ""
      && IsNumericColumn(df.value, x) && IsNumericColumn(df.value, y))
    ensures r.NotNumericColumns? ==> df.Some? && 1 <= |r.columns| <= 2
    ensures r.NotNumericColumns? ==> (x in r.columns <==> !IsNumericColumn(df.value, x))
    ensures r.NotNumericColumns? ==> (y in r.columns <==> !IsNumericColumn(df.value, y))
    ensures r.NotNumericColumns? && !IsNumericColumn(df.value, x) ==> r.columns[0] == x
    ensures r.NotNumericColumns? && !IsNumericColumn(df.value, y) ==> r.columns[|r.columns| - 1] == y
    ensures r.NotNumericColumns? ==> (r.columns
      == (if IsNumericColumn(df.value, x) then [] else [x]) + (if IsNumericColumn(df.value, y) then [] else [y]))
  {
    if df.Some? && xCount > 0 then
      if x == "" || y == "" then SelectColumns
      else
        var xRange := ColumnRangeOf(df.value, x);
        var yRange := ColumnRangeOf(df.value, y);
        if xRange.Some? && yRange.Some? then Plottable(xRange.value, yRange.value)
        else
          var nonNumeric := (if xRange.None? && x != "" then [x] else [])
                          + (if yRange.None? && y != "" then [y] else []);
          if nonNumeric != [] then NotNumericColumns(nonNumeric) else SelectColumns
    else NotLoaded
  }

  /**
   * `get_plot_data`: the dataset and the two selections when both columns are
   * numeric; otherwise why not, checked in the order `get_plot_data` uses (no dataset, an
   * empty selection, then X fully before Y: a label the dataset lacks raises,
   * a text column is refused).
   */
  function XYPlotData(df: Option<Dataset>, x: string, y: string): (r: Result<PlotRequest, Rejection>)
    ensures r.Ok? <==> (df.Some? && x != "" && y != ""
      && IsNumericColumn(df.value, x) && IsNumericColumn(df.value, y))
    ensures r.Ok? ==> r.value == PlotRequest(df.value, x, y)
    ensures r == Err(NoDataset) <==> df.None?
    ensures r == Err(MissingSelection) <==> df.Some? && (x == "" || y == "")
    ensures r == Err(UnknownColumn) <==> (df.Some? && x != "" && y != ""
      && (!HasColumn(df.value, x) || (IsNumericColumn(df.value, x) && !HasColumn(df.value, y))))
    ensures r == Err(NotNumeric) <==> (df.Some? && x != "" && y != "" && HasColumn(df.value, x)
      && (!IsNumericColumn(df.value, x) || (HasColumn(df.value, y) && !IsNumericColumn(df.value, y))))
  {
    match df
    case None => Err(NoDataset)
    case Some(d) =>
      FindColumnKind(d, x);
      FindColumnKind(d, y);
      if x == "" || y == "" then Err(MissingSelection)
      else match FindColumn(d.columns, x)
        case None => Err(UnknownColumn)
        case Some(i) =>
          if d.columns[i].values.Texts? then Err(NotNumeric)
          else match FindColumn(d.columns, y)
            case None => Err(UnknownColumn)
            case Some(j) =>
              if d.columns[j].values.Texts? then Err(NotNumeric)
              else Ok(PlotRequest(d, x, y))
  }

  /** With the X combo box filled, the dialog gets plot data exactly when the range label says a plot is possible. */
  lemma PlotDataAgreesWithRange(df: Option<Dataset>, xCount: nat, x: string, y: string)
    requires xCount > 0
    ensures XYPlotData(df, x, y).Ok? <==> ColumnRangeStatus(df, xCount, x, y).Plottable?
  {
  }

  class PlotConfigWidget {
    var csvLoader: CsvLoader
    var comboX: Combo
    var comboY: Combo

    /** Both combo boxes list the same labels, and those are the loaded dataset's columns (or nothing). */
    ghost predicate Valid()
      reads this, csvLoader
    {
      csvLoader.Valid() && comboX.Wf() && comboY.Wf() && comboX.items == comboY.items
      && (comboX.items != [] ==> csvLoader.df.Some? && comboX.items == ColumnNames(csvLoader.df.value))
    }

    constructor ()
      ensures Valid() && fresh(csvLoader)
      ensures csvLoader.df == None && comboX == EmptyCombo && comboY == EmptyCombo
    {
      csvLoader := new CsvLoader();
      comboX, comboY := EmptyCombo, EmptyCombo;
    }

    /** Whether the current selections can be plotted (the label text itself is not modelled). */
    function DisplayColumnRange(): (possible: bool)
      reads this, csvLoader
      ensures possible <==> (csvLoader.df.Some? && comboX.Count() > 0
        && comboX.CurrentText() != "" && comboY.CurrentText() != ""
        && IsNumericColumn(csvLoader.df.value, comboX.CurrentText())
        && IsNumericColumn(csvLoader.df.value, comboY.CurrentText()))
    {
      ColumnRangeStatus(csvLoader.GetDataframe(), comboX.Count(), comboX.CurrentText(), comboY.CurrentText()).Plottable?
    }

    /**
     * The plot data of the current selections. While the widget is consistent a
     * selected label is always a column, so the lookup never raises, and the
     * dialog gets data exactly when the range label says a plot is possible.
     */
    function GetPlotData(): (r: Result<PlotRequest, Rejection>)
      reads this, csvLoader
      requires Valid()
      ensures r != Err(UnknownColumn)
      ensures r.Ok? <==> DisplayColumnRange()
      ensures r.Ok? ==> r.value == PlotRequest(csvLoader.df.value, comboX.CurrentText(), comboY.CurrentText())
    {
      XYPlotData(csvLoader.GetDataframe(), comboX.CurrentText(), comboY.CurrentText())
    }

    method ClearComboboxes()
      modifies this
      ensures comboX == Cleared(old(comboX)) && comboY == Cleared(old(comboY))
      ensures csvLoader == old(csvLoader)
    {
      comboX := Cleared(comboX);
      comboY := Cleared(comboY);
    }

    /** Refills both combo boxes with the loaded dataset's labels, in dataset order. */
    method PopulateComboboxes()
      requires csvLoader.Valid()
      modifies this
      ensures Valid() && csvLoader == old(csvLoader)
      ensures csvLoader.df.Some? ==> comboX.items == ColumnNames(csvLoader.df.value)
      ensures csvLoader.df.None? ==> comboX.items == []
      ensures comboY.items == comboX.items
      ensures comboX.CurrentText() == comboY.CurrentText()
        == (if comboX.items == [] then "" else comboX.items[0])
      ensures comboX.enabled == old(comboX.enabled) && comboY.enabled == old(comboY.enabled)
    {
      ClearComboboxes();
      var columns := csvLoader.GetColumns();
      if columns.Some? && columns.value != [] {
        comboX := AddItems(comboX, columns.value);
        comboY := AddItems(comboY, columns.value);
      }
    }

    /**
     * `load_csv` with the path the file dialog returned ("" when cancelled) and
     * what the CSV reader made of that file. A failed load empties and disables
     * both combo boxes but leaves the loader's previous dataset in place.
     */
    method LoadCsv(filePath: string, parsed: Result<Dataset, string>)
      requires Valid()
      modifies this, csvLoader
      ensures Valid() && csvLoader == old(csvLoader)
      ensures filePath == "" ==> (comboX == old(comboX) && comboY == old(comboY)
        && csvLoader.df == old(csvLoader.df) && csvLoader.filename == old(csvLoader.filename))
      ensures filePath != "" && parsed.Ok? ==> (
        csvLoader.df == Some(parsed.value) && csvLoader.filename == Some(BaseName(filePath))
        && comboX.items == ColumnNames(parsed.value) && comboY.items == comboX.items
        && comboX.enabled && comboY.enabled)
      ensures filePath != "" && parsed.Ok? ==>
        comboX.CurrentText() == comboY.CurrentText() == (if comboX.items == [] then "" else comboX.items[0])
      ensures filePath != "" && parsed.Err? ==> (
        csvLoader.df == old(csvLoader.df) && csvLoader.filename == old(csvLoader.filename)
        && comboX == EmptyCombo && comboY == EmptyCombo)
    {
      if filePath != "" {
        var success, _ := csvLoader.LoadCsv(filePath, parsed);
        if success {
          PopulateComboboxes();
          comboX, comboY := comboX.(enabled := true), comboY.(enabled := true);
        } else {
          ClearComboboxes();
          comboX, comboY := comboX.(enabled := false), comboY.(enabled := false);
        }
      }
    }
  }
}
