/**
 * The column-selection widget of the bar plot dialog: a CSV loader, a label
 * combo box and a value combo box. It reports whether the configuration is
 * valid on the `plot_config_valid` signal, recorded here as the last value
 * emitted. Only the value column has a type requirement.
 */
module BarPlotConfig {
  import opened Wrappers
  import opened Datasets
  import opened CsvLoading
  import opened Widgets

  /** What the info label says; only `ValueRange` signals a valid configuration. */
  datatype InfoStatus =
    | NotLoaded                    // "Load CSV and select columns"
    | SelectColumns                // "Select Label and Value columns"
    | ValueRange(range: ColumnRange)
    | RangeUnavailable             // "Numeric, range unavailable."
    | ValueNotNumeric              // "... is NOT numeric. Select a numeric column."
    | Failed                       // an exception was caught: "Error in processing columns."

  /**
   * `display_column_info` for dataset `df`, a label combo box holding
   * `labelCount` items and the selections `labelCol` and `valueCol`. The
   * configuration is valid exactly when the value column is present and
   * numeric; the label column's type never matters, and a numeric column
   * always has a range.
   */
  function ColumnInfoStatus(df: Option<Dataset>, labelCount: nat, labelCol: string, valueCol: string): (r: InfoStatus)
    ensures r.NotLoaded? <==> df.None? || labelCount == 0
    ensures r.SelectColumns? <==> df.Some? && labelCount > 0 && (labelCol == "" || valueCol == "")
    ensures r.ValueRange? <==> (df.Some? && labelCount > 0 && labelCol != "" && valueCol != ""
      && IsNumericColumn(df.value, valueCol))
    ensures r.Failed? <==> (df.Some? && labelCount > 0 && labelCol != "" && valueCol != ""
      && !HasColumn(df.value, valueCol))
    ensures !r.RangeUnavailable?
  {
    match df
    case None => NotLoaded
    case Some(d) =>
      if labelCount == 0 then NotLoaded
      else if labelCol == "" || valueCol == "" then SelectColumns
      else
        FindColumnKind(d, valueCol);
        match FindColumn(d.columns, valueCol)
        case None => Failed
        case Some(i) =>
          if d.columns[i].values.Numbers? then
            match ColumnRangeOf(d, valueCol)
            case Some(range) => ValueRange(range)
            case None => RangeUnavailable
          else ValueNotNumeric
  }

  /**
   * `get_plot_data`: the dataset, the label selection and the value selection
   * when the value column is numeric; otherwise why not (a label the dataset
   * lacks raises inside the handler, which returns None as well).
   */
  function BarPlotData(df: Option<Dataset>, labelCol: string, valueCol: string): (r: Result<PlotRequest, Rejection>)
    ensures r.Ok? <==> (df.Some? && labelCol != "" && valueCol != "" && IsNumericColumn(df.value, valueCol))
    ensures r.Ok? ==> r.value == PlotRequest(df.value, labelCol, valueCol)
    ensures r == Err(NoDataset) <==> df.None?
    ensures r == Err(MissingSelection) <==> df.Some? && (labelCol == "" || valueCol == "")
    ensures r == Err(UnknownColumn) <==> (df.Some? && labelCol != "" && valueCol != ""
      && !HasColumn(df.value, valueCol))
    ensures r == Err(NotNumeric) <==> (df.Some? && labelCol != "" && valueCol != ""
      && HasColumn(df.value, valueCol) && !IsNumericColumn(df.value, valueCol))
  {
    match df
    case None => Err(NoDataset)
    case Some(d) =>
      FindColumnKind(d, valueCol);
      if labelCol == "" || valueCol == "" then Err(MissingSelection)
      else match FindColumn(d.columns, valueCol)
        case None => Err(UnknownColumn)
        case Some(i) =>
          if d.columns[i].values.Numbers? then Ok(PlotRequest(d, labelCol, valueCol))
          else Err(NotNumeric)
  }

  /** With the label combo box filled, the dialog gets plot data exactly when the last signal said valid. */
  lemma PlotDataAgreesWithSignal(df: Option<Dataset>, labelCount: nat, labelCol: string, valueCol: string)
    requires labelCount > 0
    ensures BarPlotData(df, labelCol, valueCol).Ok? <==> ColumnInfoStatus(df, labelCount, labelCol, valueCol).ValueRange?
  {
  }

  class BarPlotConfigWidget {
    var csvLoader: CsvLoader
    var comboLabel: Combo
    var comboValue: Combo
    /** The last value emitted on `plot_config_valid` (the dialog's OK button follows it). */
    var configValid: bool

    /** Both combo boxes list the same labels, and those are the loaded dataset's columns (or nothing). */
    ghost predicate Valid()
      reads this, csvLoader
    {
      csvLoader.Valid() && comboLabel.Wf() && comboValue.Wf() && comboLabel.items == comboValue.items
      && (comboLabel.items != [] ==> csvLoader.df.Some? && comboLabel.items == ColumnNames(csvLoader.df.value))
    }

    constructor ()
      ensures Valid() && fresh(csvLoader) && csvLoader.df == None
      ensures comboLabel == EmptyCombo && comboValue == EmptyCombo && !configValid
    {
      csvLoader := new CsvLoader();
      comboLabel, comboValue := EmptyCombo, EmptyCombo;
      configValid := false;
    }

    /** Recomputes validity from the current selections and emits it. */
    method DisplayColumnInfo()
      modifies this
      ensures configValid <==> (csvLoader.df.Some? && comboLabel.Count() > 0
        && comboLabel.CurrentText() != "" && comboValue.CurrentText() != ""
        && IsNumericColumn(csvLoader.df.value, comboValue.CurrentText()))
      ensures csvLoader == old(csvLoader) && comboLabel == old(comboLabel) && comboValue == old(comboValue)
    {
      var status := ColumnInfoStatus(csvLoader.GetDataframe(), comboLabel.Count(),
                                     comboLabel.CurrentText(), comboValue.CurrentText());
      configValid := status.ValueRange?;
    }

    /**
     * The plot data of the current selections. While the widget is consistent
     * the value selection is always a column, and the dialog gets data exactly
     * when the value column is numeric.
     */
    function GetPlotData(): (r: Result<PlotRequest, Rejection>)
      reads this, csvLoader
      requires Valid()
      ensures r != Err(UnknownColumn)
      ensures r.Ok? <==> (csvLoader.df.Some? && comboLabel.CurrentText() != "" && comboValue.CurrentText() != ""
        && IsNumericColumn(csvLoader.df.value, comboValue.CurrentText()))
      ensures r.Ok? ==> r.value == PlotRequest(csvLoader.df.value, comboLabel.CurrentText(), comboValue.CurrentText())
    {
      BarPlotData(csvLoader.GetDataframe(), comboLabel.CurrentText(), comboValue.CurrentText())
    }

    method ClearComboboxes()
      modifies this
      ensures comboLabel == Cleared(old(comboLabel)) && comboValue == Cleared(old(comboValue))
      ensures csvLoader == old(csvLoader) && configValid == old(configValid)
    {
      comboLabel := Cleared(comboLabel);
      comboValue := Cleared(comboValue);
    }

    /** Refills both combo boxes with the loaded dataset's labels, in dataset order. */
    method PopulateComboboxes()
      requires csvLoader.Valid()
      modifies this
      ensures Valid() && csvLoader == old(csvLoader) && configValid == old(configValid)
      ensures csvLoader.df.Some? ==> comboLabel.items == ColumnNames(csvLoader.df.value)
      ensures csvLoader.df.None? ==> comboLabel.items == []
      ensures comboValue.items == comboLabel.items
      ensures comboLabel.CurrentText() == comboValue.CurrentText()
        == (if comboLabel.items == [] then "" else comboLabel.items[0])
      ensures comboLabel.enabled == old(comboLabel.enabled) && comboValue.enabled == old(comboValue.enabled)
    {
      ClearComboboxes();
      var columns := csvLoader.GetColumns();
      if columns.Some? && columns.value != [] {
        comboLabel := AddItems(comboLabel, columns.value);
        comboValue := AddItems(comboValue, columns.value);
      }
    }

    /** Resets the widget: empty, disabled combo boxes, a fresh loader with no dataset, and an invalid signal. */
    method ClearControls()
      modifies this
      ensures Valid() && fresh(csvLoader)
      ensures csvLoader.df == None && csvLoader.filename == None
      ensures comboLabel == EmptyCombo && comboValue == EmptyCombo && !configValid
    {
      ClearComboboxes();
      comboLabel, comboValue := comboLabel.(enabled := false), comboValue.(enabled := false);
      configValid := false;
      csvLoader := new CsvLoader();
    }

    /**
     * `load_csv` with the path the file dialog returned ("" when cancelled) and
     * what the CSV reader made of that file. Success fills and enables both
     * combo boxes and signals invalid until a selection is checked; failure
     * resets the whole widget, dropping any earlier dataset.
     */
    method LoadCsv(filePath: string, parsed: Result<Dataset, string>)
      requires Valid()
      modifies this, csvLoader
      ensures Valid()
      ensures filePath == "" ==> (csvLoader == old(csvLoader) && comboLabel == old(comboLabel)
        && comboValue == old(comboValue) && configValid == old(configValid)
        && csvLoader.df == old(csvLoader.df) && csvLoader.filename == old(csvLoader.filename))
      ensures filePath != "" && parsed.Ok? ==> (csvLoader == old(csvLoader)
        && csvLoader.df == Some(parsed.value) && csvLoader.filename == Some(BaseName(filePath))
        && comboLabel.items == ColumnNames(parsed.value) && comboValue.items == comboLabel.items
        && comboLabel.enabled && comboValue.enabled && !configValid)
      ensures filePath != "" && parsed.Ok? ==>
        comboLabel.CurrentText() == comboValue.CurrentText()
        == (if comboLabel.items == [] then "" else comboLabel.items[0])
      ensures filePath != "" && parsed.Err? ==> (fresh(csvLoader)
        && csvLoader.df == None && csvLoader.filename == None
        && comboLabel == EmptyCombo && comboValue == EmptyCombo && !configValid)
    {
      if filePath != "" {
        var success, _ := csvLoader.LoadCsv(filePath, parsed);
        if success {
          PopulateComboboxes();
          comboLabel, comboValue := comboLabel.(enabled := true), comboValue.(enabled := true);
          configValid := false;
        } else {
          ClearControls();
        }
      }
    }
  }
}
