# Plot collection, plot panels, column selection and CSV loading — a Dafny model

This project models the logic inside a small desktop plotting application. The
user loads a CSV file, picks columns, and places scatter (XY) or bar plot
panels on a canvas. Panels can be deleted, duplicated and brought back with
"Undo Delete". The GUI toolkit, the tabular-data library and the plotting
library are abstracted away. What remains is modelled and proved:

- **Dataset** (`datasets.dfy`, module `Datasets`). A loaded table is an ordered
  sequence of columns with distinct labels. Each column is numeric (integer
  cells) or text. The module defines the lookups the application makes:
  column labels, the lookup of a label, and the (min, max) range of a numeric
  column. It also defines the text form of integer cells used for bar labels.
- **CSV loader** (`csv_loader.dfy`, `CsvLoading.CsvLoader`). It holds a
  dataset and a file name. Both change only when a load succeeds. The file
  name is the path's last `/`-separated segment.
- **Column-selection widgets** (`plot_config_widget.dfy`,
  `bar_plot_config_widget.dfy`). Each widget owns a loader and two combo
  boxes. The pure decision functions say when a plot is possible and what the
  dialog receives. The widget classes refill or clear their combo boxes on
  load. The bar widget records the last value it emitted on
  `plot_config_valid`. `widgets.dfy` models the combo box as a value.
- **Plot panels** (`plot_containers.dfy`, `PlotContainers.PlotContainer`).
  `plot` records the creation parameters, prepares the renderer's data and
  draws it. The first data drawn is kept for `_undo_plot`.
- **Plot collection** (`main_window.dfy`, `PlotCollection.MainWindow`). It
  holds the ordered list of panels, the LIFO stack of deleted entries
  `(params, index, class)`, and the undo button's enabled flag. The
  operations are append, insert, remove, duplicate and undo-delete. The
  invariant `Valid()` says that the undo button is enabled exactly when the
  stack is non-empty, and every operation keeps it.
- `scenarios.dfy` holds three client methods. They show what callers can
  conclude from the contracts. Undo is LIFO. A remove followed by an undo
  leaves the list as it was, except that the removed panel is replaced at its
  position by a new panel of the same class with the same parameters.

Values that come from outside reach the model as parameters:
- the path chosen in the file dialog (`""` when the dialog was cancelled);
- what the CSV reader made of the file (`Result<Dataset, string>`);
- whether the plotting library renders without raising (`renders`).

Note: when an undo entry has no dataset, the code discards the entry
(gui/main_window.py:147-152) rather than keeping it for a retry, and so does
the model.

## Model

| member | source | states |
|---|---|---|
| `Datasets.ColumnNames` | utils/csv_loader.py:41 | the labels come in dataset order, are pairwise distinct, and are exactly the dataset's columns |
| `Datasets.FindColumn` | utils/csv_loader.py:71-72 | the lookup returns a position whose column has that label, and returns none only when no column has it |
| `Datasets.FindColumnKind` | utils/csv_loader.py:71-73 | the lookup fails iff the label is absent; when it succeeds, the found column is numeric iff the label names a numeric column |
| `Datasets.MinOf` | utils/csv_loader.py:74 | the result is a cell of the column and no cell is smaller |
| `Datasets.MaxOf` | utils/csv_loader.py:74 | the result is a cell of the column and no cell is larger |
| `Datasets.ColumnRangeOf` | utils/csv_loader.py:61-75 | a range exists iff the column is present and numeric; it is the column's (min, max) with min <= max, or the NaN pair for a numeric column with no rows |
| `Datasets.NatDigitsRoundTrip` | gui/plot_containers.py:82 | the decimal digits of a natural number read back as that number |
| `Datasets.DecimalStringRoundTrip` | gui/plot_containers.py:82 | the text of an integer cell, sign included, reads back as that integer |
| `Datasets.DecimalString` | gui/plot_containers.py:82 | `str()` of an integer cell is canonical decimal text: no leading zero, no '+', and a '-' exactly for negative numbers |
| `Datasets.CanonicalDigitsUnique` | gui/plot_containers.py:82 | canonical digits are the digits of the number they read as |
| `Datasets.DecimalStringUnique` | gui/plot_containers.py:82 | the text of an integer is the only canonical text that reads back as it, so the text of each cell is fixed |
| `Datasets.AsText` | gui/plot_containers.py:82 | `astype(str)` keeps text cells unchanged and turns each integer cell into canonical text that reads back as it, one label per row |
| `CsvLoading.BaseName` | utils/csv_loader.py:29 | the file name has no '/', is a suffix of the path, and is preceded by a '/' unless it is the whole path |
| `CsvLoading.BaseNameOfJoin` | utils/csv_loader.py:29 | `dir + "/" + file` gives back `file` when `file` has no '/' |
| `CsvLoading.CsvLoader.constructor` | utils/csv_loader.py:8-13 | a new loader has no dataset and no file name |
| `CsvLoading.CsvLoader.LoadCsv` | utils/csv_loader.py:15-32 | success returns (True, None) and sets the dataset and the base name of the path; failure returns (False, message) and leaves the dataset and the name as they were |
| `CsvLoading.CsvLoader.GetColumns` | utils/csv_loader.py:34-41 | returns none iff nothing is loaded; otherwise the labels in dataset order |
| `CsvLoading.CsvLoader.GetDataframe` | utils/csv_loader.py:43-50 | returns none iff nothing is loaded, so exactly when `get_columns` returns none; otherwise the dataset whose labels `get_columns` lists |
| `CsvLoading.CsvLoader.GetFilename` | utils/csv_loader.py:52-59 | a name is present iff a dataset is, and it contains no '/' |
| `CsvLoading.CsvLoader.GetColumnRange` | utils/csv_loader.py:61-75 | returns none when nothing is loaded or the column is absent or non-numeric; otherwise the column's range: (min, max) with min <= max, or the NaN pair for a numeric column with no rows |
| `PlotConfig.ColumnRangeStatus` | gui/plot_config_widget.py:54-89 | "not loaded" iff there is no dataset or the X combo is empty; "select columns" iff a selection is empty; plottable iff both columns are present and numeric; otherwise the non-numeric list is exactly X (when X has no range) followed by Y (when Y has no range), so `[x, x]` when both select the same text column |
| `PlotConfig.XYPlotData` | gui/plot_config_widget.py:122-139 | returns (df, x, y) iff there is a dataset, both selections are non-empty and both columns are numeric. Every rejection is an iff that follows the order in which `get_plot_data` checks: X is looked up and tested before Y is looked up. A missing label raises only when X is absent, or when X is numeric and Y is absent; a text X refuses the plot even when Y is absent |
| `PlotConfig.PlotDataAgreesWithRange` | gui/plot_config_widget.py:122-139 | with a filled X combo, `get_plot_data` succeeds iff `display_column_range` says a plot is possible |
| `Widgets.Cleared` | gui/plot_config_widget.py:118-120 | `clear()` leaves a well-formed combo box with no items and empty current text, and keeps its enabled state |
| `Widgets.AddItems` | gui/plot_config_widget.py:111-116 | `addItems` appends the labels after the existing items and keeps the enabled state; the current item is kept, or becomes the first new label when the box was empty |
| `PlotConfig.PlotConfigWidget.constructor` | gui/plot_config_widget.py:10-52 | starts with a loader without a dataset and two empty, disabled combo boxes |
| `PlotConfig.PlotConfigWidget.DisplayColumnRange` | gui/plot_config_widget.py:54-89 | True iff a dataset is loaded, the X combo has items, both selections are non-empty and both columns are numeric |
| `PlotConfig.PlotConfigWidget.GetPlotData` | gui/plot_config_widget.py:122-139 | while the widget is consistent, the lookup never raises, and it succeeds iff `DisplayColumnRange` is True, with the current selections |
| `PlotConfig.PlotConfigWidget.ClearComboboxes` | gui/plot_config_widget.py:118-120 | both combo boxes lose all items |
| `PlotConfig.PlotConfigWidget.PopulateComboboxes` | gui/plot_config_widget.py:111-116 | both combo boxes hold exactly the loader's labels in dataset order (none when nothing is loaded), and the first label is current |
| `PlotConfig.PlotConfigWidget.LoadCsv` | gui/plot_config_widget.py:91-109 | cancelling changes nothing; success loads the dataset, fills and enables both combos with its labels, and makes the first label current in both; failure empties and disables both combos and keeps the loader's earlier dataset |
| `BarPlotConfig.ColumnInfoStatus` | gui/bar_plot_config_widget.py:53-89 | valid iff a dataset is loaded, the label combo has items, both selections are non-empty and the value column is numeric (the label column's type never matters); an absent value column ends in the exception handler; "range unavailable" never happens |
| `BarPlotConfig.BarPlotData` | gui/bar_plot_config_widget.py:132-153 | returns (df, label, value) iff there is a dataset, both selections are non-empty and the value column is numeric; each rejection holds exactly in its case |
| `BarPlotConfig.PlotDataAgreesWithSignal` | gui/bar_plot_config_widget.py:132-153 | with a filled label combo, `get_plot_data` succeeds iff `display_column_info` signals valid |
| `BarPlotConfig.BarPlotConfigWidget.constructor` | gui/bar_plot_config_widget.py:9-51 | starts with a loader without a dataset, two empty, disabled combo boxes and the OK button off |
| `BarPlotConfig.BarPlotConfigWidget.DisplayColumnInfo` | gui/bar_plot_config_widget.py:53-89 | the emitted signal is True iff a dataset is loaded, the label combo has items, both selections are non-empty and the value column is numeric |
| `BarPlotConfig.BarPlotConfigWidget.GetPlotData` | gui/bar_plot_config_widget.py:132-153 | while the widget is consistent, the lookup never fails; it succeeds iff the value column is numeric and both selections are made, and then returns (df, label, value) |
| `BarPlotConfig.BarPlotConfigWidget.ClearComboboxes` | gui/bar_plot_config_widget.py:128-130 | both combo boxes lose all items |
| `BarPlotConfig.BarPlotConfigWidget.PopulateComboboxes` | gui/bar_plot_config_widget.py:121-126 | both combo boxes hold exactly the loader's labels in dataset order (none when nothing is loaded), and the first label is current in both |
| `BarPlotConfig.BarPlotConfigWidget.ClearControls` | gui/bar_plot_config_widget.py:112-119 | the combos are emptied and disabled, the loader is replaced by a fresh one without a dataset, and the signal is invalid |
| `BarPlotConfig.BarPlotConfigWidget.LoadCsv` | gui/bar_plot_config_widget.py:91-110 | cancelling changes nothing; success loads the dataset, fills and enables both combos with the first label current in both, and signals invalid; failure resets the widget as `clear_controls` does |
| `PlotContainers.Prepare` | gui/plot_containers.py:63-87 | the data is prepared iff both named columns are present (otherwise the lookup raises), and it is XY data iff the arguments are XY arguments |
| `PlotContainers.XYDataTakesNamedColumns` | gui/plot_containers.py:65-70 | XY data takes the x and y cells from the named columns and uses the labels as axis labels |
| `PlotContainers.BarDataTakesNamedColumns` | gui/plot_containers.py:81-86 | bar data takes the label column as text and the value column as it is, and uses the labels as headings |
| `PlotContainers.PlotContainer.constructor` | gui/plot_containers.py:12-27 | a new panel has no creation parameters, no remembered data and an empty canvas |
| `PlotContainers.PlotContainer.DrawPlot` | gui/plot_containers.py:45-55 | the first data drawn is remembered and never overwritten; the canvas shows the data iff rendering succeeds; the creation parameters are untouched |
| `PlotContainers.PlotContainer.UndoPlot` | gui/plot_containers.py:29-34 | does nothing without remembered data; otherwise redraws the remembered data |
| `PlotContainers.PlotContainer.Plot` | gui/plot_containers.py:40-87 | arguments of the other class raise and change nothing; otherwise the parameters become `{df, args}` before the lookup; it succeeds iff both columns exist, and then it draws the prepared data |
| `PlotCollection.InsertAt` | gui/main_window.py:79 | `list.insert` yields one more element, with the new one at `min(i, len)` |
| `PlotCollection.RemoveAt` | gui/main_window.py:106 | `list.pop(i)` leaves one element fewer |
| `PlotCollection.InsertKeepsOrder` | gui/main_window.py:79 | removing the inserted element again gives back the original list, so all other panels keep their relative order |
| `PlotCollection.RemoveThenReinsert` | gui/main_window.py:106-160 | re-inserting at a removed element's index puts the new element in its place; re-inserting the removed element restores the list |
| `PlotCollection.IndexOf` | gui/main_window.py:96 | the result is the first position holding the panel; none iff the panel is not in the list |
| `PlotCollection.MainWindow.constructor` | gui/main_window.py:12-38 | starts with no panels, an empty history and the undo button disabled |
| `PlotCollection.MainWindow.InsertPlotWidget` | gui/main_window.py:75-84 | a panel is placed at `min(index, len)` and nothing else changes; a null panel changes nothing |
| `PlotCollection.MainWindow.AddNewPlot` | gui/main_window.py:71-73 | a panel from a dialog is appended; the history and the undo flag are untouched |
| `PlotCollection.MainWindow.RemovePlotWidget` | gui/main_window.py:94-110 | a panel not in the list or without parameters changes nothing; otherwise exactly that panel is removed at its index, `(params, index, class)` is pushed, and undo is enabled |
| `PlotCollection.MainWindow.DuplicatePlotWidget` | gui/main_window.py:112-136 | when the panel is listed and its parameters replay, a fresh panel of the same class with equal parameters is inserted at index + 1, even when rendering fails, in which case its canvas is empty; otherwise the list is unchanged; the history is never touched |
| `PlotCollection.MainWindow.UndoDeletePlot` | gui/main_window.py:138-162 | no-op on an empty history; otherwise the top entry is popped and its panel re-created at the recorded index (clamped), with an empty canvas when rendering fails; a missing dataset drops the entry, a raising `plot` restores the history exactly, and the list changes only on success |
| `Scenarios.UndoIsLastInFirstOut` | gui/main_window.py:94-162 | two panels added, both deleted and both undone come back in their original order, each with its class and its creation parameters |
| `Scenarios.UndoTwice` | gui/main_window.py:138-162 | with history [A, B] and an empty list, two undos restore B first and then put A before it, and the undo button ends disabled |
| `Scenarios.RemoveThenUndo` | gui/main_window.py:94-162 | after a delete and an undo, the list is the old list with the deleted panel replaced, at its position, by a new panel of the same class with the same parameters; the history and the undo flag are as they were |

## Left out

- Qt plumbing is not modelled. This covers widget construction, layouts, the
  scroll area, context menus, signal/slot wiring, `setParent`/`deleteLater`,
  and the layout's mirror of the panel list (gui/main_window.py:18-53, 86-92).
- `_update_plot_widget_heights` and `resizeEvent` are window geometry computed
  with a float multiply (gui/main_window.py:164-179).
- gui/visualizations.py is not modelled. The scatter and bar calls and the
  label rotation belong to the plotting library. The titles
  (`"{y} vs {x}"` and `"{value} by {label}"`, gui/visualizations.py:19, 31)
  are the application's own format strings, and they are not modelled either.
  Whether rendering raises is the `renders` parameter. A failed render leaves
  the canvas as `None`.
- The dialogs (gui/add_plot_dialog.py, gui/add_bar_plot_dialog.py,
  gui/plot_type_selection_dialog.py) and main.py only forward to the modelled
  widgets and panels. This includes the CSV preview table and the XY dialog's
  unconditional OK button.
- CSV parsing, dtype inference and `df.copy()` are not modelled. A dataset is
  an immutable value, so a copy equals the original. Missing cells, float
  columns and boolean dtypes are not modelled. Numeric cells are integers.
- The float conversion of ranges and the text of the range, info and file
  labels are not modelled. The label's message is the status datatype of each
  widget.
- Message boxes and the file dialog are user I/O. The chosen path is a
  parameter, and an error message is shown with no further state change.
- Changing a combo box's selection is a user action and has no operation of
  its own. The decision functions are proved for every selection.
- The `currentTextChanged` cascade is not modelled. While the combos are
  cleared and refilled, it calls `display_column_range` and
  `display_column_info`. Only the final emitted value of `plot_config_valid`
  is recorded, and that value is the one `load_csv` and `clear_controls` emit
  explicitly.
- `BarPlotConfig.BarPlotConfigWidget.LoadCsv`: its outer exception handler is
  not modelled for exceptions raised by toolkit calls. Only a failed load
  leads to `clear_controls`.
- `BarPlotConfig.ColumnInfoStatus`: the only exception modelled is the lookup
  of an absent value column. Other unexpected exceptions are toolkit failures
  and fall outside the model.
