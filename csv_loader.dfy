/**
 * The CSV loader: holds the last dataset read successfully and the name of the
 * file it came from. Reading and parsing the file belong to the tabular-data
 * library; its outcome reaches `LoadCsv` as the parameter `parsed`.
 */
module CsvLoading {
  import opened Wrappers
  import opened Datasets

  /** `path.split("/")[-1]`: the text after the last '/' (all of `path` when it has none). */
  function BaseName(path: string): (name: string)
    ensures '/' !in name
    ensures IsSuffix(name, path)
    ensures |name| < |path| ==> path[|path| - |name| - 1] == '/'
  {
    if path == [] then []
    else if path[|path| - 1] == '/' then []
    else BaseName(path[..|path| - 1]) + [path[|path| - 1]]
  }

  predicate IsSuffix(s: string, t: string)
  {
    |s| <= |t| && s == t[|t| - |s|..]
  }

  /** Joining a directory and a plain file name with '/' and taking the base name gives the file name back. */
  lemma BaseNameOfJoin(dir: string, file: string)
    requires '/' !in file
    ensures BaseName(dir + "/" + file) == file
  {
    var path := dir + "/" + file;
    var name := BaseName(path);
    assert path[|dir|] == '/';
    if |name| > |file| {
      assert false;
    }
    if |name| < |file| {
      assert false;
    }
    assert path[|path| - |file|..] == file;
  }

  class CsvLoader {
    var df: Option<Dataset>
    var filename: Option<string>

    /** A dataset and its file name are present together, and the name is a bare file name. */
    ghost predicate Valid()
      reads this
    {
      df.Some? == filename.Some? && (filename.Some? ==> '/' !in filename.value)
    }

    constructor ()
      ensures Valid() && df == None && filename == None
    {
      df := None;
      filename := None;
    }

    /**
     * Loads the file at `filePath`; `parsed` is what the CSV reader made of it
     * (a dataset, or the message of the exception it raised).
     */
    method LoadCsv(filePath: string, parsed: Result<Dataset, string>) returns (success: bool, error: Option<string>)
      requires Valid()
      modifies this
      ensures Valid()
      ensures success <==> parsed.Ok?
      ensures parsed.Ok? ==> error == None && df == Some(parsed.value) && filename == Some(BaseName(filePath))
      ensures parsed.Err? ==> error == Some(parsed.error) && df == old(df) && filename == old(filename)
    {
      if parsed.Ok? {
        var name := BaseName(filePath);
        df, filename := Some(parsed.value), Some(name);
        success, error := true, None;
      } else {
        success, error := false, Some(parsed.error);
      }
    }

    /** The column labels in dataset order, or none when nothing is loaded. */
    function GetColumns(): (columns: Option<seq<string>>)
      reads this
      ensures columns.Some? <==> df.Some?
      ensures columns.Some? ==> |columns.value| == |df.value.columns|
      ensures columns.Some? ==> forall i :: 0 <= i < |columns.value| ==> columns.value[i] == df.value.columns[i].name
    {
      if df.Some? then Some(ColumnNames(df.value)) else None
    }

    /** The loaded dataset; its labels are what `GetColumns` lists. */
    function GetDataframe(): (d: Option<Dataset>)
      reads this
      ensures d.Some? <==> GetColumns().Some?
      ensures d.Some? ==> GetColumns() == Some(ColumnNames(d.value))
    {
      df
    }

    function GetFilename(): (name: Option<string>)
      reads this
      requires Valid()
      ensures name.Some? <==> GetDataframe().Some?
      ensures name.Some? ==> '/' !in name.value
    {
      filename
    }

    /** (min, max) of a column: none when nothing is loaded or the column is absent or not numeric. */
    function GetColumnRange(columnName: string): (range: Option<ColumnRange>)
      reads this
      ensures range.Some? <==> df.Some? && IsNumericColumn(df.value, columnName)
      ensures range.Some? && range.value.Range? ==> range.value.lo <= range.value.hi
    {
      if df.Some? then ColumnRangeOf(df.value, columnName) else None
    }
  }
}
