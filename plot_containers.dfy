/**
 * Plot panels. A panel is created empty, is given a dataset and the column
 * labels of its kind by `plot`, remembers those as its creation parameters
 * (replayed by duplicate and undo-delete), prepares the data its renderer
 * needs, and draws it. Rendering itself belongs to the plotting library; whether
 * it succeeds reaches the model as the parameter `renders`.
 */
module PlotContainers {
  import opened Wrappers
  import opened Datasets

  /** The panel class: a scatter (XY) panel or a bar panel. */
  datatype PlotKind = XY | Bar

  /** The keyword arguments of `plot`: `x_col`/`y_col` for an XY panel, `label_col`/`value_col` for a bar panel. */
  datatype PlotArgs = XYArgs(xCol: string, yCol: string) | BarArgs(labelCol: string, valueCol: string)
  {
    /** The panel class whose `plot` accepts these keyword arguments. */
    function Kind(): PlotKind
    {
      if XYArgs? then XY else Bar
    }

    /** The column looked up first (`x_col` or `label_col`). */
    function First(): string
    {
      if XYArgs? then xCol else labelCol
    }

    /** The column looked up second (`y_col` or `value_col`). */
    function Second(): string
    {
      if XYArgs? then yCol else valueCol
    }
  }

  /** `creation_params`: the 'df' entry (None when it is missing) and the keyword arguments. */
  datatype Params = Params(df: Option<Dataset>, args: PlotArgs)

  /** The dictionaries handed to the renderers. */
  datatype PreparedData =
    | XYData(xData: Values, yData: Values, xLabel: string, yLabel: string)
    | BarData(labels: seq<string>, values: Values, labelHeading: string, valueHeading: string)

  /**
   * The prepared data of `plot(df, **args)`, or None when a named column is
   * absent (the lookup raises KeyError).
   */
  function Prepare(df: Dataset, args: PlotArgs): (r: Option<PreparedData>)
    ensures r.Some? <==> HasColumn(df, args.First()) && HasColumn(df, args.Second())
    ensures r.Some? ==> (r.value.XYData? <==> args.XYArgs?)
  {
    FindColumnKind(df, args.First());
    FindColumnKind(df, args.Second());
    match FindColumn(df.columns, args.First())
    case None => None
    case Some(i) =>
      match FindColumn(df.columns, args.Second())
      case None => None
      case Some(j) =>
        var first, second := df.columns[i], df.columns[j];
        match args
        case XYArgs(x, y) => Some(XYData(first.values, second.values, x, y))
        case BarArgs(l, v) => Some(BarData(AsText(first.values), second.values, l, v))
  }

  /** An XY panel plots the named columns against each other and uses their labels as axis labels. */
  lemma XYDataTakesNamedColumns(df: Dataset, i: nat, j: nat)
    requires i < |df.columns| && j < |df.columns|
    ensures Prepare(df, XYArgs(df.columns[i].name, df.columns[j].name))
         == Some(XYData(df.columns[i].values, df.columns[j].values, df.columns[i].name, df.columns[j].name))
  {
    FindColumnUnique(df, df.columns[i].name, i);
    FindColumnUnique(df, df.columns[j].name, j);
  }

  /**
   * A bar panel shows the label column as text (one label per row, text cells
   * unchanged, integer cells in decimal), the value column as it is, and the
   * two labels as headings.
   */
  lemma BarDataTakesNamedColumns(df: Dataset, i: nat, j: nat)
    requires i < |df.columns| && j < |df.columns|
    ensures Prepare(df, BarArgs(df.columns[i].name, df.columns[j].name))
         == Some(BarData(AsText(df.columns[i].values), df.columns[j].values, df.columns[i].name, df.columns[j].name))
  {
    FindColumnUnique(df, df.columns[i].name, i);
    FindColumnUnique(df, df.columns[j].name, j);
  }

  class PlotContainer {
    /** The panel's class, fixed at construction. */
    const kind: PlotKind
    var creationParams: Option<Params>
    /** `_original_data_for_plot_undo`: the first prepared data ever drawn, kept for `_undo_plot`. */
    var originalData: Option<PreparedData>
    /** What the axes show: the data last drawn successfully; None when empty or a render failed midway. */
    var canvas: Option<PreparedData>

    constructor (kind: PlotKind)
      ensures this.kind == kind
      ensures creationParams == None && originalData == None && canvas == None
    {
      this.kind := kind;
      creationParams, originalData, canvas := None, None, None;
    }

    /**
     * `_draw_plot`: remembers `data` if nothing was remembered before, clears
     * the axes and renders. A render failure is reported to the user and does
     * not propagate.
     */
    method DrawPlot(data: PreparedData, renders: bool)
      modifies this
      ensures originalData == if old(originalData).None? then Some(data) else old(originalData)
      ensures canvas == if renders then Some(data) else None
      ensures creationParams == old(creationParams)
    {
      if originalData.None? {
        originalData := Some(data);
      }
      canvas := if renders then Some(data) else None;
    }

    /** `_undo_plot`: redraws the remembered data, if there is any. */
    method UndoPlot(renders: bool)
      modifies this
      ensures old(originalData).None? ==> canvas == old(canvas)
      ensures old(originalData).Some? ==> canvas == if renders then old(originalData) else None
      ensures originalData == old(originalData) && creationParams == old(creationParams)
    {
      if originalData.Some? {
        DrawPlot(originalData.value, renders);
      }
    }

    /**
     * `plot(df, **args)`. Keyword arguments of the other panel class raise
     * before anything happens. Otherwise the creation parameters are recorded
     * first; then a label the dataset lacks raises, and only a complete
     * lookup draws. `ok` is false exactly when the call raises.
     */
    method Plot(df: Dataset, args: PlotArgs, renders: bool) returns (ok: bool)
      modifies this
      ensures ok <==> args.Kind() == kind && Prepare(df, args).Some?
      ensures args.Kind() == kind ==> creationParams == Some(Params(Some(df), args))
      ensures args.Kind() != kind ==> creationParams == old(creationParams)
      ensures !ok ==> originalData == old(originalData) && canvas == old(canvas)
      ensures ok ==> originalData == (if old(originalData).None? then Prepare(df, args) else old(originalData))
      ensures ok ==> canvas == if renders then Prepare(df, args) else None
    {
      if args.Kind() != kind {
        return false;
      }
      creationParams := Some(Params(Some(df), args));
      var prepared := Prepare(df, args);
      if prepared.None? {
        return false;
      }
      DrawPlot(prepared.value, renders);
      ok := true;
    }
  }
}
