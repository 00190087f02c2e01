/**
 * The parsed table the backend works on (a pandas DataFrame read from a
 * CSV or Excel file), kept abstract: named, typed columns and rows of
 * cells, each cell a number, a text or missing.
 */
module Frame {
  import opened Common

  datatype Cell = Num(x: real) | Text(s: string)

  /** The dtypes a parsed column can get. A whole-number column without
    * gaps is `int64`; numbers with gaps or fractions are `float64`; text
    * is `object`; any other dtype the readers can produce (`bool`, or
    * `datetime64[ns]` from an Excel date column) is kept by its name. */
  datatype DType = Int64 | Float64 | Object | Other(name: string)

  /** `str(df[col].dtype)`. */
  function DTypeName(d: DType): string
  {
    match d
    case Int64 => "int64"
    case Float64 => "float64"
    case Object => "object"
    case Other(name) => name
  }

  /** `select_dtypes(include=['number'])` keeps exactly these: `object`,
    * `bool` and `datetime64[ns]` columns are left out. */
  predicate IsNumeric(d: DType) { d == Int64 || d == Float64 }

  datatype Column = Column(name: string, dtype: DType)

  datatype Table = Table(columns: seq<Column>, rows: seq<seq<Option<Cell>>>)

  /** What parsing guarantees: every row has one cell per column, column
    * names are distinct, numeric columns hold numbers only and an `int64`
    * column has no missing cells. */
  predicate WellFormed(t: Table)
  {
    (forall i :: 0 <= i < |t.rows| ==> |t.rows[i]| == |t.columns|) &&
    (forall j, k :: 0 <= j < k < |t.columns| ==> t.columns[j].name != t.columns[k].name) &&
    (forall i, j :: 0 <= i < |t.rows| && 0 <= j < |t.columns| && IsNumeric(t.columns[j].dtype) ==>
       (t.rows[i][j].Some? ==> t.rows[i][j].value.Num?)) &&
    (forall i, j :: 0 <= i < |t.rows| && 0 <= j < |t.columns| && t.columns[j].dtype == Int64 ==>
       t.rows[i][j].Some?)
  }

  function Names(cols: seq<Column>): (r: seq<string>)
    ensures |r| == |cols| && forall j :: 0 <= j < |cols| ==> r[j] == cols[j].name
  {
    seq(|cols|, j requires 0 <= j < |cols| => cols[j].name)
  }

  /** `df[col].isnull().sum()` over the given rows. */
  function NullCount(rows: seq<seq<Option<Cell>>>, j: nat): (n: nat)
    requires forall i :: 0 <= i < |rows| ==> j < |rows[i]|
    ensures n <= |rows|
  {
    if rows == [] then 0
    else NullCount(rows[..|rows| - 1], j) + (if rows[|rows| - 1][j].None? then 1 else 0)
  }

  /** `df[col].count()`: the cells that are present. */
  function NonNullCount(rows: seq<seq<Option<Cell>>>, j: nat): (n: nat)
    requires forall i :: 0 <= i < |rows| ==> j < |rows[i]|
  {
    if rows == [] then 0
    else NonNullCount(rows[..|rows| - 1], j) + (if rows[|rows| - 1][j].Some? then 1 else 0)
  }

  /** Present and missing cells of a column add up to the row count. */
  lemma {:induction false} CountsAddUp(rows: seq<seq<Option<Cell>>>, j: nat)
    requires forall i :: 0 <= i < |rows| ==> j < |rows[i]|
    ensures NonNullCount(rows, j) + NullCount(rows, j) == |rows|
  {
    if rows != [] {
      CountsAddUp(rows[..|rows| - 1], j);
    }
  }

  /** A column has a missing cell exactly when its null count is positive. */
  lemma {:induction false} NullCountPositive(rows: seq<seq<Option<Cell>>>, j: nat)
    requires forall i :: 0 <= i < |rows| ==> j < |rows[i]|
    ensures NullCount(rows, j) > 0 <==> exists i :: 0 <= i < |rows| && rows[i][j].None?
  {
    if rows != [] {
      var p := rows[..|rows| - 1];
      NullCountPositive(p, j);
      if exists i :: 0 <= i < |rows| && rows[i][j].None? {
        var i :| 0 <= i < |rows| && rows[i][j].None?;
        if i < |p| { assert p[i][j].None?; }
      }
      if exists i :: 0 <= i < |p| && p[i][j].None? {
        var i :| 0 <= i < |p| && p[i][j].None?;
        assert rows[i][j].None?;
      }
    }
  }

  /** The numbers of column `j`, missing cells dropped (`df[col].dropna()`). */
  function ColumnValues(rows: seq<seq<Option<Cell>>>, j: nat): (xs: seq<real>)
    requires forall i :: 0 <= i < |rows| ==> j < |rows[i]|
  {
    if rows == [] then []
    else
      var c := rows[|rows| - 1][j];
      ColumnValues(rows[..|rows| - 1], j) + (if c.Some? && c.value.Num? then [c.value.x] else [])
  }

  /** In a numeric column every present cell contributes one value. */
  lemma {:induction false} ColumnValuesCount(rows: seq<seq<Option<Cell>>>, j: nat)
    requires forall i :: 0 <= i < |rows| ==> j < |rows[i]|
    requires forall i :: 0 <= i < |rows| && rows[i][j].Some? ==> rows[i][j].value.Num?
    ensures |ColumnValues(rows, j)| == NonNullCount(rows, j)
  {
    if rows != [] {
      ColumnValuesCount(rows[..|rows| - 1], j);
    }
  }

  /** Indices of the numeric columns, in column order. */
  function NumericColumns(cols: seq<Column>): (r: seq<nat>)
    ensures forall k :: 0 <= k < |r| ==> r[k] < |cols| && IsNumeric(cols[r[k]].dtype)
    ensures forall j :: 0 <= j < |cols| && IsNumeric(cols[j].dtype) ==> j in r
    ensures forall k, l :: 0 <= k < l < |r| ==> r[k] < r[l]
  {
    if cols == [] then []
    else
      var p := NumericColumns(cols[..|cols| - 1]);
      p + (if IsNumeric(cols[|cols| - 1].dtype) then [|cols| - 1] else [])
  }

  /** `numeric_df.empty`: no numeric column, or no row at all. */
  predicate NumericEmpty(t: Table)
  {
    |NumericColumns(t.columns)| == 0 || |t.rows| == 0
  }

  /** `fillna('N/A')` on one row. */
  function FillMissing(row: seq<Option<Cell>>): (r: seq<Cell>)
    ensures |r| == |row|
    ensures forall j :: 0 <= j < |row| ==> r[j] == if row[j].Some? then row[j].value else Text("N/A")
  {
    seq(|row|, j requires 0 <= j < |row| => if row[j].Some? then row[j].value else Text("N/A"))
  }
}
