/**
 * Client-side scenarios: what a caller can conclude about the plot collection
 * from the operations' contracts alone.
 */
module Scenarios {
  import opened Wrappers
  import opened Datasets
  import opened PlotContainers
  import opened PlotCollection

  /** A two-column numeric dataset for the scenarios. */
  const Sample: Dataset := Table([Column("time", Numbers([1, 2])), Column("value", Numbers([5, 7]))])

  /** Deleting panel A and then panel B, two undos bring back B first and then A, each at its old place. */
  method UndoIsLastInFirstOut() returns (restored: seq<PlotContainer>)
    ensures |restored| == 2
    ensures restored[0].kind == XY && restored[0].creationParams == Some(Params(Some(Sample), XYArgs("time", "value")))
    ensures restored[1].kind == Bar && restored[1].creationParams == Some(Params(Some(Sample), BarArgs("time", "value")))
  {
    var d: Dataset := Sample;
    XYDataTakesNamedColumns(d, 0, 1);
    BarDataTakesNamedColumns(d, 0, 1);
    var window := new MainWindow();
    var a := new PlotContainer(XY);
    var okA := a.Plot(d, XYArgs("time", "value"), true);
    var b := new PlotContainer(Bar);
    var okB := b.Plot(d, BarArgs("time", "value"), true);
    window.AddNewPlot(a);
    window.AddNewPlot(b);
    assert window.plotWidgets == [a, b];

    var paramsA, paramsB := Params(Some(d), XYArgs("time", "value")), Params(Some(d), BarArgs("time", "value"));
    assert a.creationParams == Some(paramsA) && b.creationParams == Some(paramsB);
    assert Replayable(paramsA, XY) && Replayable(paramsB, Bar);

    assert IndexOf([a, b], a) == Some(0);
    window.RemovePlotWidget(a);
    assert window.plotWidgets == [b] by {
      assert RemoveAt([a, b], 0) == [b];
    }
    assert window.deletedPlots == [DeletedEntry(paramsA, 0, XY)];
    assert IndexOf([b], b) == Some(0);
    window.RemovePlotWidget(b);
    assert window.plotWidgets == [] && window.undoEnabled;
    assert window.deletedPlots == [DeletedEntry(paramsA, 0, XY), DeletedEntry(paramsB, 0, Bar)];

    UndoTwice(window, DeletedEntry(paramsA, 0, XY), DeletedEntry(paramsB, 0, Bar));
    assert window.plotWidgets[0].creationParams == a.creationParams;
    assert window.plotWidgets[1].creationParams == b.creationParams;
    restored := window.plotWidgets;
  }

  /** From an empty list and the history [A, B], the first undo restores B and the second puts A before it. */
  method UndoTwice(window: MainWindow, entryA: DeletedEntry, entryB: DeletedEntry)
    requires window.Valid() && window.plotWidgets == [] && window.deletedPlots == [entryA, entryB]
    requires Replayable(entryA.params, entryA.kind) && Replayable(entryB.params, entryB.kind)
    requires entryA.index == 0
    modifies window
    ensures window.Valid() && window.deletedPlots == [] && !window.undoEnabled
    ensures |window.plotWidgets| == 2
    ensures window.plotWidgets[0].kind == entryA.kind && window.plotWidgets[0].creationParams == Some(entryA.params)
    ensures window.plotWidgets[1].kind == entryB.kind && window.plotWidgets[1].creationParams == Some(entryB.params)
  {
    window.UndoDeletePlot(true);
    assert window.deletedPlots == [entryA];
    var restoredB := window.plotWidgets[0];
    assert window.plotWidgets == [restoredB];
    window.UndoDeletePlot(true);
    var restoredA := window.plotWidgets[0];
    assert window.plotWidgets == InsertAt([restoredB], 0, restoredA);
    assert window.plotWidgets == [restoredA, restoredB];

  }

  /**
   * Deleting a panel and undoing at once brings back, at the same position, a
   * new panel of the same class with the same creation parameters; the rest of
   * the list and the history are as before.
   */
  method RemoveThenUndo(window: MainWindow, w: PlotContainer, renders: bool)
    requires window.Valid() && w in window.plotWidgets
    requires w.creationParams.Some? && Replayable(w.creationParams.value, w.kind)
    modifies window
    ensures window.Valid()
    ensures window.deletedPlots == old(window.deletedPlots) && window.undoEnabled == old(window.undoEnabled)
    ensures |window.plotWidgets| == |old(window.plotWidgets)|
    ensures var i := IndexOf(old(window.plotWidgets), w).value;
      window.plotWidgets == old(window.plotWidgets)[i := window.plotWidgets[i]]
      && window.plotWidgets[i].kind == w.kind && window.plotWidgets[i].creationParams == w.creationParams
  {
    var i := IndexOf(window.plotWidgets, w).value;
    ghost var before := window.plotWidgets;
    window.RemovePlotWidget(w);
    assert window.deletedPlots[|window.deletedPlots| - 1] == DeletedEntry(w.creationParams.value, i, w.kind);
    window.UndoDeletePlot(renders);
    RemoveThenReinsert(before, i, window.plotWidgets[i]);
  }
}
