/**
 * The tabular dataset that the CSV loader produces, seen abstractly: an ordered
 * sequence of columns with distinct names, each either numeric (integer cells)
 * or text. Parsing and dtype inference belong to the tabular-data library and
 * are not modelled; the queries the application makes of a dataset are.
 */
module Datasets {
  import opened Wrappers

  /** The cells of one column: numeric (a numeric dtype) or text (any other dtype). */
  datatype Values = Numbers(nums: seq<int>) | Texts(cells: seq<string>)

  datatype Column = Column(name: string, values: Values)

  datatype Table = Table(columns: seq<Column>)

  predicate DistinctNames(cols: seq<Column>)
  {
    forall i, j :: 0 <= i < j < |cols| ==> cols[i].name != cols[j].name
  }

  /** A loaded dataset: column labels are unique, as the CSV reader makes them. */
  type Dataset = t: Table | DistinctNames(t.columns) witness Table([])

  /** `name` labels a column of `d`. */
  predicate HasColumn(d: Dataset, name: string)
  {
    exists i :: 0 <= i < |d.columns| && d.columns[i].name == name
  }

  /** `name` labels a column of `d` whose dtype is numeric. */
  predicate IsNumericColumn(d: Dataset, name: string)
  {
    exists i :: 0 <= i < |d.columns| && d.columns[i].name == name && d.columns[i].values.Numbers?
  }

  /** The column labels in dataset order (`df.columns.tolist()`). */
  function ColumnNames(d: Dataset): (names: seq<string>)
    ensures |names| == |d.columns|
    ensures forall i :: 0 <= i < |names| ==> names[i] == d.columns[i].name
    ensures forall i, j :: 0 <= i < j < |names| ==> names[i] != names[j]
    ensures forall name :: name in names <==> HasColumn(d, name)
  {
    seq(|d.columns|, i requires 0 <= i < |d.columns| => d.columns[i].name)
  }

  /** Position of the column labelled `name`, as `df[name]` finds it. */
  function FindColumn(cols: seq<Column>, name: string): (r: Option<nat>)
    ensures r.Some? ==> r.value < |cols| && cols[r.value].name == name
    ensures r.None? <==> forall i :: 0 <= i < |cols| ==> cols[i].name != name
  {
    if cols == [] then None
    else if cols[0].name == name then Some(0)
    else match FindColumn(cols[1..], name)
      case None => None
      case Some(k) => Some(k + 1)
  }

  /** In a dataset the lookup finds the one column with that label. */
  lemma FindColumnUnique(d: Dataset, name: string, i: int)
    requires 0 <= i < |d.columns| && d.columns[i].name == name
    ensures FindColumn(d.columns, name) == Some(i)
  {
  }

  /** What the lookup tells about a label: absent, or present with its dtype. */
  lemma FindColumnKind(d: Dataset, name: string)
    ensures FindColumn(d.columns, name).None? <==> !HasColumn(d, name)
    ensures FindColumn(d.columns, name).Some? ==>
      (d.columns[FindColumn(d.columns, name).value].values.Numbers? <==> IsNumericColumn(d, name))
    ensures !HasColumn(d, name) ==> !IsNumericColumn(d, name)
  {
    forall i | 0 <= i < |d.columns| && d.columns[i].name == name
      ensures FindColumn(d.columns, name) == Some(i)
    {
      FindColumnUnique(d, name, i);
    }
  }

  function MinOf(s: seq<int>): (m: int)
    requires s != []
    ensures m in s && forall k :: 0 <= k < |s| ==> m <= s[k]
  {
    if |s| == 1 then s[0]
    else var rest := MinOf(s[1..]); if s[0] <= rest then s[0] else rest
  }

  function MaxOf(s: seq<int>): (m: int)
    requires s != []
    ensures m in s && forall k :: 0 <= k < |s| ==> s[k] <= m
  {
    if |s| == 1 then s[0]
    else var rest := MaxOf(s[1..]); if s[0] >= rest then s[0] else rest
  }

  /**
   * The (min, max) pair of a numeric column. For a numeric column without rows
   * the library's min and max are NaN, and the pair (NaN, NaN) is still a
   * present value: that is `NaNRange`.
   */
  datatype ColumnRange = Range(lo: int, hi: int) | NaNRange

  /** The range of a column: none when the column is absent or not numeric. */
  function ColumnRangeOf(d: Dataset, name: string): (r: Option<ColumnRange>)
    ensures r.Some? <==> IsNumericColumn(d, name)
    ensures r == Some(NaNRange) ==>
      exists i :: 0 <= i < |d.columns| && d.columns[i] == Column(name, Numbers([]))
    ensures r.Some? && r.value.Range? ==> r.value.lo <= r.value.hi
    ensures r.Some? && r.value.Range? ==>
      exists i :: 0 <= i < |d.columns| && d.columns[i].name == name && d.columns[i].values.Numbers?
        && IsMinMax(d.columns[i].values.nums, r.value.lo, r.value.hi)
  {
    match FindColumn(d.columns, name)
    case None => None
    case Some(k) =>
      var c := d.columns[k];
      FindColumnKind(d, name);
      if c.values.Texts? then None
      else if c.values.nums == [] then Some(NaNRange)
      else Some(Range(MinOf(c.values.nums), MaxOf(c.values.nums)))
  }

  /** `lo` and `hi` are the smallest and largest cells of `s`. */
  predicate IsMinMax(s: seq<int>, lo: int, hi: int)
  {
    lo in s && hi in s && forall k :: 0 <= k < |s| ==> lo <= s[k] <= hi
  }

  predicate AllDigits(s: string)
  {
    forall k :: 0 <= k < |s| ==> '0' <= s[k] <= '9'
  }

  /** Decimal digits without a leading zero, except for "0" itself. */
  predicate CanonicalDigits(s: string)
  {
    s != [] && AllDigits(s) && (s[0] == '0' ==> |s| == 1)
  }

  /** The text `str()` gives an integer: canonical digits, or '-' before the digits of a non-zero number. */
  predicate CanonicalDecimal(s: string)
  {
    CanonicalDigits(s) || (|s| >= 2 && s[0] == '-' && CanonicalDigits(s[1..]) && s[1] != '0')
  }

  /** Decimal digits of a natural number, most significant first. */
  function NatDigits(n: nat): (r: string)
    ensures CanonicalDigits(r)
    ensures r[0] == '0' <==> n == 0
    decreases n
  {
    if n < 10 then [Digit(n)] else NatDigits(n / 10) + [Digit(n % 10)]
  }

  function Digit(n: nat): (c: char)
    requires n < 10
  {
    ('0' as int + n) as char
  }

  /** How `str()` writes an integer cell: decimal, with a leading '-' when negative. */
  function DecimalString(n: int): (r: string)
    ensures CanonicalDecimal(r)
    ensures n < 0 <==> r[0] == '-'
  {
    if n < 0 then "-" + NatDigits(-n) else NatDigits(n)
  }

  /** Reads back a string of decimal digits. */
  function DigitsValue(s: string): nat
  {
    if s == [] then 0 else DigitsValue(s[..|s| - 1]) * 10 + DigitValue(s[|s| - 1])
  }

  function DigitValue(c: char): nat
  {
    if '0' <= c <= '9' then (c as int - '0' as int) as nat else 0
  }

  function ParseDecimal(s: string): int
  {
    if s != [] && s[0] == '-' then -(DigitsValue(s[1..]) as int) else DigitsValue(s)
  }

  lemma {:induction false} NatDigitsRoundTrip(n: nat)
    ensures DigitsValue(NatDigits(n)) == n
    decreases n
  {
    if n >= 10 {
      var s := NatDigits(n);
      assert s[..|s| - 1] == NatDigits(n / 10);
      NatDigitsRoundTrip(n / 10);
    }
  }

  /** A text cell made from an integer reads back as that integer. */
  lemma DecimalStringRoundTrip(n: int)
    ensures ParseDecimal(DecimalString(n)) == n
  {
    if n < 0 {
      var digits := NatDigits(-n);
      NatDigitsRoundTrip(-n);
      assert DecimalString(n) == "-" + digits;
      assert ("-" + digits)[1..] == digits;
    } else {
      var digits := NatDigits(n);
      NatDigitsRoundTrip(n);
      assert DecimalString(n) == digits && digits[0] != '-';
    }
  }

  /** Digits whose first digit is not zero read as a positive number. */
  lemma {:induction false} DigitsValuePositive(s: string)
    requires s != [] && AllDigits(s) && s[0] != '0'
    ensures DigitsValue(s) >= 1
    decreases |s|
  {
    if |s| > 1 {
      DigitsValuePositive(s[..|s| - 1]);
    }
  }

  /** Canonical digits are the only digits of the number they read as. */
  lemma {:induction false} CanonicalDigitsUnique(s: string)
    requires CanonicalDigits(s)
    ensures s == NatDigits(DigitsValue(s))
    decreases |s|
  {
    if |s| > 1 {
      var p := s[..|s| - 1];
      DigitsValuePositive(p);
      CanonicalDigitsUnique(p);
      var n := DigitsValue(s);
      assert n / 10 == DigitsValue(p) && n % 10 == DigitValue(s[|s| - 1]);
      assert NatDigits(n) == NatDigits(n / 10) + [Digit(n % 10)];
    }
  }

  /**
   * `str()` of an integer is the only canonical text that reads back as it:
   * a leading zero, a '+' or "-0" never stands for a cell.
   */
  lemma DecimalStringUnique(s: string, n: int)
    requires CanonicalDecimal(s) && ParseDecimal(s) == n
    ensures s == DecimalString(n)
  {
    if s[0] == '-' {
      var t := s[1..];
      DigitsValuePositive(t);
      CanonicalDigitsUnique(t);
      assert s == "-" + t;
    } else {
      CanonicalDigitsUnique(s);
    }
  }

  /** `astype(str)`: every cell of a column as text. */
  function AsText(v: Values): (labels: seq<string>)
    ensures v.Texts? ==> labels == v.cells
    ensures v.Numbers? ==> |labels| == |v.nums|
    ensures v.Numbers? ==> forall k :: 0 <= k < |labels| ==> ParseDecimal(labels[k]) == v.nums[k]
    ensures v.Numbers? ==> forall k :: 0 <= k < |labels| ==> CanonicalDecimal(labels[k])
  {
    match v
    case Texts(cells) => cells
    case Numbers(nums) =>
      var r := seq(|nums|, k requires 0 <= k < |nums| => DecimalString(nums[k]));
      assert forall k :: 0 <= k < |r| ==> ParseDecimal(r[k]) == nums[k] by {
        forall k | 0 <= k < |r| ensures ParseDecimal(r[k]) == nums[k] {
          DecimalStringRoundTrip(nums[k]);
        }
      }
      r
  }
}
