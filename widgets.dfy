/**
 * The toolkit values the two column-selection widgets share: a combo box seen
 * as a value (its items, its current index and whether it is enabled), and the
 * outcome of asking a widget for its plot data.
 */
module Widgets {
  import opened Datasets

  /**
   * A non-editable combo box. `index` is -1 exactly when there are no items,
   * and the current text is then empty.
   */
  datatype Combo = Combo(items: seq<string>, index: int, enabled: bool)
  {
    predicate Wf()
    {
      if items == [] then index == -1 else 0 <= index < |items|
    }

    function Count(): nat
    {
      |items|
    }

    function CurrentText(): string
    {
      if 0 <= index < |items| then items[index] else ""
    }
  }

  /** An empty, disabled combo box, as the widgets start. */
  const EmptyCombo := Combo([], -1, false)

  /** `clear()`: no items, no current item; the enabled flag is kept. */
  function Cleared(c: Combo): (r: Combo)
    ensures r.Wf() && r.items == [] && r.CurrentText() == "" && r.enabled == c.enabled
  {
    c.(items := [], index := -1)
  }

  /** `addItems(xs)`: appends the items; an empty combo box makes the first one current. */
  function AddItems(c: Combo, xs: seq<string>): (r: Combo)
    requires c.Wf()
    ensures r.Wf() && r.items == c.items + xs && r.enabled == c.enabled
    ensures c.items != [] ==> r.CurrentText() == c.CurrentText()
    ensures c.items == [] && xs != [] ==> r.CurrentText() == xs[0]
  {
    c.(items := c.items + xs, index := if c.index == -1 && xs != [] then 0 else c.index)
  }

  /** What `get_plot_data` hands to the dialog: the dataset and the two chosen column labels. */
  datatype PlotRequest = PlotRequest(df: Dataset, first: string, second: string)

  /**
   * Why `get_plot_data` returned None, in the order the widget checks.
   * `UnknownColumn` is a label the dataset lacks. In the XY widget that lookup
   * raises KeyError out of `get_plot_data`; the bar widget catches it and
   * returns None.
   */
  datatype Rejection = NoDataset | MissingSelection | NotNumeric | UnknownColumn
}
