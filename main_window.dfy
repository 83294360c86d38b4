/**
 * The main window's plot collection: the ordered list of plot panels on the
 * canvas, the stack of deleted panels' creation parameters, and the enabled
 * state of the "Undo Delete" button. Panels are objects, found in the list by
 * identity.
 */
module PlotCollection {
  import opened Wrappers
  import opened PlotContainers

  /** One entry of `deleted_plots`: the panel's creation parameters, its index in the list, and its class. */
  datatype DeletedEntry = DeletedEntry(params: Params, index: nat, kind: PlotKind)

  /** Where `list.insert(i, x)` puts `x` in a list of length `n`, for a non-negative `i`. */
  function Clamp(i: nat, n: nat): nat
  {
    if i <= n then i else n
  }

  /** `list.insert(i, x)`: an index past the end appends. */
  function InsertAt<T>(s: seq<T>, i: nat, x: T): (r: seq<T>)
    ensures |r| == |s| + 1 && r[Clamp(i, |s|)] == x
  {
    var k := Clamp(i, |s|);
    s[..k] + [x] + s[k..]
  }

  /** `list.pop(i)`, for the list that remains. */
  function RemoveAt<T>(s: seq<T>, i: nat): (r: seq<T>)
    requires i < |s|
    ensures |r| == |s| - 1
  {
    s[..i] + s[i + 1..]
  }

  /** Inserting shifts nothing else: taking the new element out again gives back the list, in order. */
  lemma InsertKeepsOrder<T>(s: seq<T>, i: nat, x: T)
    ensures RemoveAt(InsertAt(s, i, x), Clamp(i, |s|)) == s
  {
    var k := Clamp(i, |s|);
    var r := InsertAt(s, i, x);
    assert r[..k] == s[..k];
    assert r[k + 1..] == s[k..];
    assert s[..k] + s[k..] == s;
  }

  /**
   * Inserting at the index an element was removed from puts the new element
   * in its place and everything else back where it was; re-inserting the
   * removed element itself restores the list.
   */
  lemma RemoveThenReinsert<T>(s: seq<T>, i: nat, x: T)
    requires i < |s|
    ensures InsertAt(RemoveAt(s, i), i, x) == s[i := x]
    ensures InsertAt(RemoveAt(s, i), i, s[i]) == s
  {
    var t := RemoveAt(s, i);
    assert Clamp(i, |t|) == i;
    assert t[..i] == s[..i];
    assert t[i..] == s[i + 1..];
    assert s[..i] + [x] + s[i + 1..] == s[i := x];
    assert s[i := s[i]] == s;
  }

  /** `list.index(x)`: the first position holding `x`, or None where Python raises ValueError. */
  function IndexOf<T(==)>(s: seq<T>, x: T): (r: Option<nat>)
    ensures r.Some? ==> r.value < |s| && s[r.value] == x && x !in s[..r.value]
    ensures r.None? <==> x !in s
  {
    if s == [] then None
    else if s[0] == x then Some(0)
    else match IndexOf(s[1..], x)
      case None => None
      case Some(k) =>
        assert s[..k + 1] == [s[0]] + s[1..][..k];
        Some(k + 1)
  }

  /**
   * Stored parameters can be replayed onto a new panel of class `kind`: the
   * dataset is there, and `plot` would not raise.
   */
  predicate Replayable(p: Params, kind: PlotKind)
  {
    p.df.Some? && p.args.Kind() == kind && Prepare(p.df.value, p.args).Some?
  }

  class MainWindow {
    var plotWidgets: seq<PlotContainer>
    /** The undo history; its last element is the top of the stack. */
    var deletedPlots: seq<DeletedEntry>
    /** Whether the "Undo Delete" button is enabled. */
    var undoEnabled: bool

    /** The undo button is enabled exactly when there is something to undo. */
    ghost predicate Valid()
      reads this
    {
      undoEnabled <==> deletedPlots != []
    }

    constructor ()
      ensures Valid() && plotWidgets == [] && deletedPlots == []
    {
      plotWidgets, deletedPlots := [], [];
      undoEnabled := false;
    }

    /** `_insert_plot_widget`: places a panel at `index`, or at the end when `index` is past it. */
    method InsertPlotWidget(w: PlotContainer?, index: nat)
      modifies this
      ensures w == null ==> plotWidgets == old(plotWidgets)
      ensures w != null ==> plotWidgets == InsertAt(old(plotWidgets), index, w)
      ensures deletedPlots == old(deletedPlots) && undoEnabled == old(undoEnabled)
    {
      if w != null {
        plotWidgets := InsertAt(plotWidgets, index, w);
      }
    }

    /** `_add_new_plot`: a panel from a dialog goes to the end of the list. */
    method AddNewPlot(w: PlotContainer?)
      requires Valid()
      modifies this
      ensures Valid()
      ensures w == null ==> plotWidgets == old(plotWidgets)
      ensures w != null ==> plotWidgets == old(plotWidgets) + [w]
      ensures deletedPlots == old(deletedPlots) && undoEnabled == old(undoEnabled)
    {
      if w != null {
        InsertPlotWidget(w, |plotWidgets|);
        assert plotWidgets == old(plotWidgets) + [w] by {
          assert old(plotWidgets)[|old(plotWidgets)|..] == [];
        }
      }
    }

    /**
     * `_remove_plot_widget`: a panel that is in the list and has creation
     * parameters is taken out, and its parameters, index and class are pushed
     * on the undo stack; anything else changes nothing.
     */
    method RemovePlotWidget(w: PlotContainer)
      requires Valid()
      modifies this
      ensures Valid()
      ensures IndexOf(old(plotWidgets), w).None? || w.creationParams.None? ==>
        plotWidgets == old(plotWidgets) && deletedPlots == old(deletedPlots) && undoEnabled == old(undoEnabled)
      ensures IndexOf(old(plotWidgets), w).Some? && w.creationParams.Some? ==>
        var i := IndexOf(old(plotWidgets), w).value;
        plotWidgets == RemoveAt(old(plotWidgets), i)
        && deletedPlots == old(deletedPlots) + [DeletedEntry(w.creationParams.value, i, w.kind)]
        && undoEnabled
    {
      var found := IndexOf(plotWidgets, w);
      if found.None? {
        return;
      }
      var index := found.value;
      if w.creationParams.Some? {
        deletedPlots := deletedPlots + [DeletedEntry(w.creationParams.value, index, w.kind)];
        plotWidgets := RemoveAt(plotWidgets, index);
        undoEnabled := true;
      }
    }

    /**
     * `_duplicate_plot_widget`: a new panel of the same class, plotted from
     * the same parameters, goes right after the original. A panel not in the
     * list, missing parameters, a missing dataset or a `plot` that raises
     * leave the list as it was.
     */
    method DuplicatePlotWidget(w: PlotContainer, renders: bool)
      requires Valid()
      modifies this
      ensures Valid()
      ensures deletedPlots == old(deletedPlots) && undoEnabled == old(undoEnabled)
      ensures !(IndexOf(old(plotWidgets), w).Some? && w.creationParams.Some?
                && Replayable(w.creationParams.value, w.kind)) ==>
        plotWidgets == old(plotWidgets)
      ensures IndexOf(old(plotWidgets), w).Some? && w.creationParams.Some?
              && Replayable(w.creationParams.value, w.kind) ==>
        var i := IndexOf(old(plotWidgets), w).value;
        var params := w.creationParams.value;
        |plotWidgets| == |old(plotWidgets)| + 1
        && plotWidgets == InsertAt(old(plotWidgets), i + 1, plotWidgets[i + 1])
        && fresh(plotWidgets[i + 1])
        && plotWidgets[i + 1].kind == w.kind
        && plotWidgets[i + 1].creationParams == w.creationParams
        && plotWidgets[i + 1].originalData == Prepare(params.df.value, params.args)
        && plotWidgets[i + 1].canvas == (if renders then Prepare(params.df.value, params.args) else None)
    {
      var found := IndexOf(plotWidgets, w);
      if found.None? {
        return;
      }
      var originalIndex := found.value;
      if w.creationParams.None? {
        return;
      }
      var params := w.creationParams.value;
      var copy := new PlotContainer(w.kind);
      if params.df.None? {
        return;
      }
      var ok := copy.Plot(params.df.value, params.args, renders);
      if !ok {
        return;
      }
      InsertPlotWidget(copy, originalIndex + 1);
    }

    /**
     * `undo_delete_plot`: pops the most recent entry and re-creates its panel
     * at the recorded index (clamped to the end). If the entry has no dataset
     * it is dropped; if `plot` raises it is pushed back, so the history is as
     * before. The list changes only on success.
     */
    method UndoDeletePlot(renders: bool)
      requires Valid()
      modifies this
      ensures Valid()
      ensures old(deletedPlots) == [] ==>
        plotWidgets == old(plotWidgets) && deletedPlots == old(deletedPlots) && undoEnabled == old(undoEnabled)
      ensures old(deletedPlots) != [] ==>
        var n := |old(deletedPlots)|;
        var e := old(deletedPlots)[n - 1];
        (e.params.df.None? ==>
           plotWidgets == old(plotWidgets) && deletedPlots == old(deletedPlots)[..n - 1])
        && (e.params.df.Some? && !Replayable(e.params, e.kind) ==>
           plotWidgets == old(plotWidgets) && deletedPlots == old(deletedPlots))
        && (Replayable(e.params, e.kind) ==>
           var k := Clamp(e.index, |old(plotWidgets)|);
           deletedPlots == old(deletedPlots)[..n - 1]
           && |plotWidgets| == |old(plotWidgets)| + 1
           && plotWidgets == InsertAt(old(plotWidgets), e.index, plotWidgets[k])
           && fresh(plotWidgets[k])
           && plotWidgets[k].kind == e.kind
           && plotWidgets[k].creationParams == Some(e.params)
           && plotWidgets[k].originalData == Prepare(e.params.df.value, e.params.args)
           && plotWidgets[k].canvas == (if renders then Prepare(e.params.df.value, e.params.args) else None))
    {
      if deletedPlots == [] {
        return;
      }
      var entry := deletedPlots[|deletedPlots| - 1];
      deletedPlots := deletedPlots[..|deletedPlots| - 1];
      var restored := new PlotContainer(entry.kind);
      if entry.params.df.None? {
        if deletedPlots == [] {
          undoEnabled := false;
        }
        return;
      }
      var ok := restored.Plot(entry.params.df.value, entry.params.args, renders);
      if !ok {
        deletedPlots := deletedPlots + [entry];
        return;
      }
      InsertPlotWidget(restored, entry.index);
      if deletedPlots == [] {
        undoEnabled := false;
      }
    }
  }
}
