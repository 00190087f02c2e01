/**
 * The PDF report of one upload (`download_pdf_report` in
 * backend/accounts/views.py), as the sequence of document elements the
 * view appends: fixed paragraphs, tables of strings, chart images and page
 * breaks. Layout, colours and fonts are not modelled. Number formatting
 * (`f"{v:.2f}"`, NaN included), `str()` of a cell, the time stamp, the
 * memory figure and whether each chart can be drawn or embedded are
 * parameters.
 */
module Report {
  import opened Common
  import opened Frame
  import opened Stats
  import opened Models
  import opened Uploads

  /** A chart and the data the view hands to the plotting library. */
  datatype Chart =
    | Line(column: string, values: seq<Option<real>>)
    | Bar(column: string, values: seq<Option<real>>)
    | Pie(column: string, values: seq<Option<real>>)
    | Histogram(column: string, data: seq<real>)
    | Scatter(x: string, y: string, xs: seq<Option<real>>, ys: seq<Option<real>>)
    | Combined(x: string, y: string, xs: seq<Option<real>>, ys: seq<Option<real>>)
    | BoxPlot(columns: seq<string>, groups: seq<seq<real>>)

  datatype Element =
    | Title(text: string)
    | Heading(text: string)
    | Para(text: string)
    | Spacer
    | PageBreak
    | Grid(cells: seq<seq<string>>)
    | Image(chart: Chart)

  /** `f"{v:.2f}"`, given None for NaN. */
  type Fmt = Option<real> -> string

  // ------------------------------------------------------------ column access

  predicate NumericAt(t: Table, j: nat)
  {
    WellFormed(t) && j < |t.columns| && IsNumeric(t.columns[j].dtype)
  }

  /** `numeric_df[col].head(n)`: the first n cells as numbers, NaN as None. */
  function Head(t: Table, j: nat, n: nat): (r: seq<Option<real>>)
    requires NumericAt(t, j)
    ensures |r| == Min(n, |t.rows|)
    ensures forall i :: 0 <= i < |r| ==>
              r[i] == if t.rows[i][j].Some? then Some(t.rows[i][j].value.x) else None
  {
    var m := Min(n, |t.rows|);
    seq(m, i requires 0 <= i < m => if t.rows[i][j].Some? then Some(t.rows[i][j].value.x) else None)
  }

  /** The indices of the first n numeric columns (`numeric_df.columns[:n]`). */
  function FirstNumeric(t: Table, n: nat): (r: seq<nat>)
    ensures |r| == Min(n, |NumericColumns(t.columns)|)
    ensures forall k :: 0 <= k < |r| ==> r[k] == NumericColumns(t.columns)[k]
  {
    TakeFacts(NumericColumns(t.columns), n);
    Take(NumericColumns(t.columns), n)
  }

  lemma FirstNumericAt(t: Table, n: nat)
    requires WellFormed(t)
    ensures forall k :: 0 <= k < |FirstNumeric(t, n)| ==> NumericAt(t, FirstNumeric(t, n)[k])
  {
  }

  // ------------------------------------------------------------ column information

  const ColumnInfoHeader: seq<string> := ["Column Name", "Data Type", "Non-Null Count", "Null Count"]

  function ColumnInfoRow(t: Table, j: nat): seq<string>
    requires WellFormed(t) && j < |t.columns|
  {
    [Take(t.columns[j].name, 30), Take(DTypeName(t.columns[j].dtype), 20),
     NatToString(NonNullCount(t.rows, j)), NatToString(NullCount(t.rows, j))]
  }

  /** The column-information table's cells: the header and one row per column. */
  function ColumnInfoCells(t: Table): seq<seq<string>>
    requires WellFormed(t)
  {
    [ColumnInfoHeader] + seq(|t.columns|, j requires 0 <= j < |t.columns| => ColumnInfoRow(t, j))
  }

  /** The column-information table: the header and one row per column. */
  method ColumnInfoTable(t: Table) returns (cells: seq<seq<string>>)
    requires WellFormed(t)
    ensures |cells| == |t.columns| + 1 && cells[0] == ColumnInfoHeader
    ensures forall j :: 0 <= j < |t.columns| ==> cells[j + 1] == ColumnInfoRow(t, j)
    ensures cells == ColumnInfoCells(t)
  {
    cells := [ColumnInfoHeader];
    for j := 0 to |t.columns|
      invariant |cells| == j + 1 && cells[0] == ColumnInfoHeader
      invariant forall k :: 0 <= k < j ==> cells[k + 1] == ColumnInfoRow(t, k)
    {
      cells := cells + [ColumnInfoRow(t, j)];
    }
  }

  /** Each row shows the name cut to 30 characters and the dtype cut to 20,
    * and the two counts it shows add up to the number of rows. */
  lemma ColumnInfoRowFacts(t: Table, j: nat)
    requires WellFormed(t) && j < |t.columns|
    ensures var r := ColumnInfoRow(t, j);
            |r| == 4 &&
            |r[0]| == Min(30, |t.columns[j].name|) && r[0] == t.columns[j].name[..|r[0]|] &&
            |r[1]| <= 20 && r[1] == DTypeName(t.columns[j].dtype)[..|r[1]|] &&
            exists present: nat, missing: nat :: r[2] == NatToString(present) && r[3] == NatToString(missing) &&
                                       present + missing == |t.rows|
  {
    CountsAddUp(t.rows, j);
    var r := ColumnInfoRow(t, j);
    assert r[2] == NatToString(NonNullCount(t.rows, j)) && r[3] == NatToString(NullCount(t.rows, j));
  }

  /** The table when there is a column, else the placeholder. */
  function TableOrPlaceholder(cells: seq<seq<string>>, placeholder: string): (r: seq<Element>)
  {
    if |cells| > 1 then [Grid(cells)] else [Para(placeholder)]
  }

  // ------------------------------------------------------------ key highlights

  function HighlightText(t: Table, j: nat, fmt: Fmt, sqrt: real -> real): string
    requires NumericAt(t, j)
  {
    var d := ColumnSummary(t, j, sqrt);
    "<b>" + t.columns[j].name + ":</b> Mean = " + fmt(d.mean) + ", Std Dev = " + fmt(d.std)
  }

  /** Each text as a paragraph followed by a spacer. */
  function Paragraphs(texts: seq<string>): (r: seq<Element>)
    ensures |r| == 2 * |texts| && forall e :: e in r ==> e.Para? || e.Spacer?
  {
    if texts == [] then []
    else Paragraphs(texts[..|texts| - 1]) + [Para(texts[|texts| - 1]), Spacer]
  }

  lemma {:induction false} ParagraphsAt(texts: seq<string>, k: nat)
    requires k < |texts|
    ensures Paragraphs(texts)[2 * k] == Para(texts[k]) && Paragraphs(texts)[2 * k + 1] == Spacer
  {
    if k < |texts| - 1 {
      ParagraphsAt(texts[..|texts| - 1], k);
    }
  }

  /** The columns the highlights cover: the first 3 numeric columns, none
    * when the numeric frame is empty. */
  function HighlightColumns(t: Table): (cols: seq<nat>)
    requires WellFormed(t)
    ensures |cols| <= 3 && forall k :: 0 <= k < |cols| ==> NumericAt(t, cols[k])
  {
    FirstNumericAt(t, 3);
    if NumericEmpty(t) then [] else FirstNumeric(t, 3)
  }

  /** The highlight texts, one per covered column. */
  function HighlightTexts(t: Table, fmt: Fmt, sqrt: real -> real): (texts: seq<string>)
    requires WellFormed(t)
  {
    var cols := HighlightColumns(t);
    seq(|cols|, k requires 0 <= k < |cols| => HighlightText(t, cols[k], fmt, sqrt))
  }

  /** The highlights: for each of the first 3 numeric columns (none when the
    * numeric frame is empty) a paragraph followed by a spacer. */
  method Highlights(t: Table, fmt: Fmt, sqrt: real -> real) returns (out: seq<Element>)
    requires WellFormed(t)
    ensures out == Paragraphs(HighlightTexts(t, fmt, sqrt))
    ensures forall e :: e in out ==> e.Para? || e.Spacer?
    ensures var cols := if NumericEmpty(t) then [] else FirstNumeric(t, 3);
            |out| == 2 * |cols| &&
            forall k :: 0 <= k < |cols| ==>
              NumericAt(t, cols[k]) && out[2 * k] == Para(HighlightText(t, cols[k], fmt, sqrt)) && out[2 * k + 1] == Spacer
  {
    var cols := HighlightColumns(t);
    var texts := HighlightTexts(t, fmt, sqrt);
    out := AddParagraphs(texts);
    forall k | 0 <= k < |cols|
      ensures out[2 * k] == Para(texts[k]) && out[2 * k + 1] == Spacer
    {
      ParagraphsAt(texts, k);
    }
  }

  /** Appends a paragraph and a spacer per text. */
  method AddParagraphs(texts: seq<string>) returns (out: seq<Element>)
    ensures out == Paragraphs(texts)
  {
    out := [];
    for k := 0 to |texts|
      invariant out == Paragraphs(texts[..k])
    {
      assert texts[..k + 1][..k] == texts[..k];
      out := out + [Para(texts[k]), Spacer];
    }
    assert texts[..|texts|] == texts;
  }

  // ------------------------------------------------------------ statistical summary

  const StatNames: seq<string> := ["count", "mean", "std", "min", "25%", "50%", "75%", "max"]

  /** One cell of the summary: the formatted statistic, or "N/A" for NaN. */
  function StatCell(t: Table, j: nat, s: nat, fmt: Fmt, sqrt: real -> real): string
    requires NumericAt(t, j) && s < 8
  {
    var v := StatValues(ColumnSummary(t, j, sqrt))[s];
    if v.Some? then fmt(v) else "N/A"
  }

  function StatsHeader(t: Table, cols: seq<nat>): seq<string>
    requires forall k :: 0 <= k < |cols| ==> cols[k] < |t.columns|
  {
    ["Statistic"] + seq(|cols|, k requires 0 <= k < |cols| => t.columns[cols[k]].name)
  }

  /** The cells of statistic `s` for the first n of the shown columns. */
  function StatCells(t: Table, cols: seq<nat>, s: nat, n: nat, fmt: Fmt, sqrt: real -> real): (r: seq<string>)
    requires forall k :: 0 <= k < |cols| ==> NumericAt(t, cols[k])
    requires s < 8 && n <= |cols|
    ensures |r| == n
  {
    if n == 0 then [] else StatCells(t, cols, s, n - 1, fmt, sqrt) + [StatCell(t, cols[n - 1], s, fmt, sqrt)]
  }

  lemma {:induction false} StatCellsAt(t: Table, cols: seq<nat>, s: nat, n: nat, fmt: Fmt, sqrt: real -> real, k: nat)
    requires forall k :: 0 <= k < |cols| ==> NumericAt(t, cols[k])
    requires s < 8 && k < n <= |cols|
    ensures StatCells(t, cols, s, n, fmt, sqrt)[k] == StatCell(t, cols[k], s, fmt, sqrt)
  {
    if k < n - 1 {
      StatCellsAt(t, cols, s, n - 1, fmt, sqrt, k);
    }
  }

  function StatsRow(t: Table, cols: seq<nat>, s: nat, fmt: Fmt, sqrt: real -> real): seq<string>
    requires forall k :: 0 <= k < |cols| ==> NumericAt(t, cols[k])
    requires s < 8
  {
    [StatNames[s]] + StatCells(t, cols, s, |cols|, fmt, sqrt)
  }

  /** The statistical summary's cells: the header over the first 5 numeric
    * columns, then the eight statistics, one row each. */
  function StatsCells(t: Table, fmt: Fmt, sqrt: real -> real): seq<seq<string>>
    requires WellFormed(t)
  {
    var cols := FirstNumeric(t, 5);
    FirstNumericAt(t, 5);
    [StatsHeader(t, cols)] + seq(8, s requires 0 <= s < 8 => StatsRow(t, cols, s, fmt, sqrt))
  }

  /** The statistical summary over the first 5 numeric columns: a header
    * and the eight statistics, one row each, built cell by cell. */
  method StatsTable(t: Table, fmt: Fmt, sqrt: real -> real) returns (cells: seq<seq<string>>)
    requires WellFormed(t)
    ensures var cols := FirstNumeric(t, 5);
            |cells| == 9 && cells[0] == StatsHeader(t, cols) &&
            forall s :: 0 <= s < 8 ==> cells[s + 1] == StatsRow(t, cols, s, fmt, sqrt)
    ensures cells == StatsCells(t, fmt, sqrt)
  {
    var cols := FirstNumeric(t, 5);
    FirstNumericAt(t, 5);
    cells := [StatsHeader(t, cols)];
    for s := 0 to 8
      invariant |cells| == s + 1 && cells[0] == StatsHeader(t, cols)
      invariant forall m :: 0 <= m < s ==> cells[m + 1] == StatsRow(t, cols, m, fmt, sqrt)
    {
      var row := StatsRowCells(t, cols, s, fmt, sqrt);
      cells := cells + [row];
    }
  }

  /** One summary row: the statistic's name, then its cell for each shown
    * column in order. */
  method StatsRowCells(t: Table, cols: seq<nat>, s: nat, fmt: Fmt, sqrt: real -> real) returns (row: seq<string>)
    requires forall k :: 0 <= k < |cols| ==> NumericAt(t, cols[k])
    requires s < 8
    ensures row == StatsRow(t, cols, s, fmt, sqrt)
  {
    row := [StatNames[s]];
    for k := 0 to |cols|
      invariant row == [StatNames[s]] + StatCells(t, cols, s, k, fmt, sqrt)
    {
      row := row + [StatCell(t, cols[k], s, fmt, sqrt)];
    }
  }

  /** One summary cell: the count is always shown, and the standard
    * deviation is "N/A" when the column has fewer than two present values
    * and the formatted value otherwise. */
  lemma StatCellFacts(t: Table, j: nat, s: nat, fmt: Fmt, sqrt: real -> real)
    requires NumericAt(t, j) && s < 8
    ensures s == 0 ==> StatCell(t, j, s, fmt, sqrt) == fmt(Some(NonNullCount(t.rows, j) as real))
    ensures s == 2 && NonNullCount(t.rows, j) < 2 ==> StatCell(t, j, s, fmt, sqrt) == "N/A"
    ensures s == 2 && NonNullCount(t.rows, j) >= 2 ==> StatCell(t, j, s, fmt, sqrt) == fmt(ColumnSummary(t, j, sqrt).std)
  {
    ColumnSummaryFacts(t, j, sqrt);
    var d := ColumnSummary(t, j, sqrt);
    assert StatValues(d)[0] == Some(d.count as real);
    assert StatValues(d)[2] == d.std;
  }

  /** Every summary row has one cell per shown column after its label, each
    * the cell of that column. */
  lemma StatsRowFacts(t: Table, s: nat, k: nat, fmt: Fmt, sqrt: real -> real)
    requires WellFormed(t) && s < 8 && k < |FirstNumeric(t, 5)|
    ensures var cols := FirstNumeric(t, 5);
            var r := StatsRow(t, cols, s, fmt, sqrt);
            |cols| <= 5 && |r| == |cols| + 1 && r[0] == StatNames[s] &&
            NumericAt(t, cols[k]) && r[k + 1] == StatCell(t, cols[k], s, fmt, sqrt)
  {
    var cols := FirstNumeric(t, 5);
    FirstNumericAt(t, 5);
    StatCellsAt(t, cols, s, |cols|, fmt, sqrt, k);
  }

  // ------------------------------------------------------------ missing values

  const MissingHeader: seq<string> := ["Column", "Missing Count", "Missing %"]

  function MissingRow(t: Table, j: nat, fmt: Fmt): seq<string>
    requires WellFormed(t) && j < |t.columns| && NullCount(t.rows, j) > 0
  {
    var c := NullCount(t.rows, j);
    [t.columns[j].name, NatToString(c), fmt(Some((c as real / |t.rows| as real) * 100.0)) + "%"]
  }

  /** The rows for the first n columns: only columns with a missing cell. */
  function MissingRows(t: Table, n: nat, fmt: Fmt): seq<seq<string>>
    requires WellFormed(t) && n <= |t.columns|
  {
    if n == 0 then []
    else MissingRows(t, n - 1, fmt) + (if NullCount(t.rows, n - 1) > 0 then [MissingRow(t, n - 1, fmt)] else [])
  }

  /** The missing-values table: the header and one row per column that has a
    * missing cell, in column order. */
  method MissingTable(t: Table, fmt: Fmt) returns (cells: seq<seq<string>>)
    requires WellFormed(t)
    ensures cells == [MissingHeader] + MissingRows(t, |t.columns|, fmt)
  {
    cells := [MissingHeader];
    for j := 0 to |t.columns|
      invariant cells == [MissingHeader] + MissingRows(t, j, fmt)
    {
      if NullCount(t.rows, j) > 0 {
        cells := cells + [MissingRow(t, j, fmt)];
      }
    }
  }

  /** There is no row (and the report says so instead) exactly when no
    * column has a missing cell. */
  lemma {:induction false} MissingRowsEmpty(t: Table, n: nat, fmt: Fmt)
    requires WellFormed(t) && n <= |t.columns|
    ensures MissingRows(t, n, fmt) == [] <==> forall j :: 0 <= j < n ==> NullCount(t.rows, j) == 0
  {
    if n > 0 {
      MissingRowsEmpty(t, n - 1, fmt);
      var p := MissingRows(t, n - 1, fmt);
      var last := if NullCount(t.rows, n - 1) > 0 then [MissingRow(t, n - 1, fmt)] else [];
      assert MissingRows(t, n, fmt) == p + last;
      if forall j :: 0 <= j < n ==> NullCount(t.rows, j) == 0 {
        assert NullCount(t.rows, n - 1) == 0;
      } else {
        var j :| 0 <= j < n && NullCount(t.rows, j) != 0;
        if j < n - 1 {
          assert !(forall k :: 0 <= k < n - 1 ==> NullCount(t.rows, k) == 0);
        } else {
          assert |last| == 1;
        }
      }
    }
  }

  /** Every row is the row of some column with a missing cell. */
  lemma {:induction false} MissingRowsSound(t: Table, n: nat, fmt: Fmt, i: nat)
    requires WellFormed(t) && n <= |t.columns| && i < |MissingRows(t, n, fmt)|
    ensures exists j :: 0 <= j < n && NullCount(t.rows, j) > 0 && MissingRows(t, n, fmt)[i] == MissingRow(t, j, fmt)
  {
    var p := MissingRows(t, n - 1, fmt);
    if i < |p| {
      MissingRowsSound(t, n - 1, fmt, i);
      var j :| 0 <= j < n - 1 && NullCount(t.rows, j) > 0 && p[i] == MissingRow(t, j, fmt);
      assert MissingRows(t, n, fmt)[i] == p[i];
    } else {
      assert NullCount(t.rows, n - 1) > 0 && MissingRows(t, n, fmt)[i] == MissingRow(t, n - 1, fmt);
    }
  }

  /** Every column with a missing cell has its row. */
  lemma {:induction false} MissingRowsComplete(t: Table, n: nat, fmt: Fmt, j: nat)
    requires WellFormed(t) && j < n <= |t.columns| && NullCount(t.rows, j) > 0
    ensures MissingRow(t, j, fmt) in MissingRows(t, n, fmt)
  {
    if j < n - 1 {
      MissingRowsComplete(t, n - 1, fmt, j);
    }
  }

  /** Each missing row's count is the column's null count over the whole
    * table and its percentage is that count over the row count. */
  lemma MissingRowFacts(t: Table, j: nat, fmt: Fmt)
    requires WellFormed(t) && j < |t.columns| && NullCount(t.rows, j) > 0
    ensures |t.rows| > 0
    ensures var r := MissingRow(t, j, fmt);
            r[0] == t.columns[j].name && r[1] == NatToString(NullCount(t.rows, j)) &&
            r[2] == fmt(Some(NullCount(t.rows, j) as real / |t.rows| as real * 100.0)) + "%"
  {
  }

  // ------------------------------------------------------------ distribution

  const DistributionHeader: seq<string> := ["Column", "Min", "Max", "Median", "Q1", "Q3"]

  /** The five figures of one column in the table's order: min, max, median,
    * first and third quartile. */
  function DistributionValues(t: Table, j: nat, sqrt: real -> real): seq<Option<real>>
    requires NumericAt(t, j)
  {
    var d := ColumnSummary(t, j, sqrt);
    [d.min, d.max, d.q50, d.q25, d.q75]
  }

  function DistributionRow(t: Table, j: nat, fmt: Fmt, sqrt: real -> real): seq<string>
    requires NumericAt(t, j)
  {
    var v := DistributionValues(t, j, sqrt);
    [Take(t.columns[j].name, 25), fmt(v[0]), fmt(v[1]), fmt(v[2]), fmt(v[3]), fmt(v[4])]
  }

  /** The rows of the first n of the shown columns. */
  function DistributionRows(t: Table, cols: seq<nat>, n: nat, fmt: Fmt, sqrt: real -> real): (r: seq<seq<string>>)
    requires forall k :: 0 <= k < |cols| ==> NumericAt(t, cols[k])
    requires n <= |cols|
    ensures |r| == n
  {
    if n == 0 then [] else DistributionRows(t, cols, n - 1, fmt, sqrt) + [DistributionRow(t, cols[n - 1], fmt, sqrt)]
  }

  lemma {:induction false} DistributionRowsAt(t: Table, cols: seq<nat>, n: nat, fmt: Fmt, sqrt: real -> real, k: nat)
    requires forall k :: 0 <= k < |cols| ==> NumericAt(t, cols[k])
    requires k < n <= |cols|
    ensures DistributionRows(t, cols, n, fmt, sqrt)[k] == DistributionRow(t, cols[k], fmt, sqrt)
  {
    if k < n - 1 {
      DistributionRowsAt(t, cols, n - 1, fmt, sqrt, k);
    }
  }

  /** The distribution table's cells over the first 5 numeric columns. */
  function DistributionCells(t: Table, fmt: Fmt, sqrt: real -> real): (cells: seq<seq<string>>)
    requires WellFormed(t)
    ensures |cells| == |FirstNumeric(t, 5)| + 1 && cells[0] == DistributionHeader
  {
    var cols := FirstNumeric(t, 5);
    FirstNumericAt(t, 5);
    [DistributionHeader] + DistributionRows(t, cols, |cols|, fmt, sqrt)
  }

  /** The distribution table over the first 5 numeric columns: the header,
    * then one row per column in column order. */
  method DistributionTable(t: Table, fmt: Fmt, sqrt: real -> real) returns (cells: seq<seq<string>>)
    requires WellFormed(t)
    ensures var cols := FirstNumeric(t, 5);
            (forall k :: 0 <= k < |cols| ==> NumericAt(t, cols[k])) &&
            cells == [DistributionHeader] + DistributionRows(t, cols, |cols|, fmt, sqrt)
    ensures cells == DistributionCells(t, fmt, sqrt)
  {
    var cols := FirstNumeric(t, 5);
    FirstNumericAt(t, 5);
    cells := [DistributionHeader];
    for k := 0 to |cols|
      invariant cells == [DistributionHeader] + DistributionRows(t, cols, k, fmt, sqrt)
    {
      cells := cells + [DistributionRow(t, cols[k], fmt, sqrt)];
    }
  }

  /** For a column with a present value the five figures exist and are
    * ordered min <= Q1 <= median <= Q3 <= max; for a column without one
    * they are all NaN. */
  lemma DistributionOrdered(t: Table, j: nat, sqrt: real -> real)
    requires NumericAt(t, j)
    ensures var v := DistributionValues(t, j, sqrt);
            (NonNullCount(t.rows, j) > 0 ==>
               v[0].Some? && v[1].Some? && v[2].Some? && v[3].Some? && v[4].Some? &&
               v[0].value <= v[3].value <= v[2].value <= v[4].value <= v[1].value) &&
            (NonNullCount(t.rows, j) == 0 ==> v == [None, None, None, None, None])
  {
    ColumnSummaryFacts(t, j, sqrt);
    FiveFigures(ColumnSummary(t, j, sqrt), NonNullCount(t.rows, j));
  }

  lemma FiveFigures(d: Summary, present: nat)
    requires present == 0 ==> d.min.None? && d.q25.None? && d.q50.None? && d.q75.None? && d.max.None?
    requires present > 0 ==>
               d.min.Some? && d.max.Some? && d.q25.Some? && d.q50.Some? && d.q75.Some? &&
               d.min.value <= d.q25.value <= d.q50.value <= d.q75.value <= d.max.value
    ensures var v := [d.min, d.max, d.q50, d.q25, d.q75];
            (present > 0 ==>
               v[0].Some? && v[1].Some? && v[2].Some? && v[3].Some? && v[4].Some? &&
               v[0].value <= v[3].value <= v[2].value <= v[4].value <= v[1].value) &&
            (present == 0 ==> v == [None, None, None, None, None])
  {
  }

  // ------------------------------------------------------------ sample

  function SampleHeader(t: Table): (r: seq<string>)
    ensures |r| == |t.columns|
  {
    seq(|t.columns|, j requires 0 <= j < |t.columns| => Take(t.columns[j].name, 15))
  }

  function SampleRow(row: seq<Option<Cell>>, show: Option<Cell> -> string): (r: seq<string>)
    ensures |r| == |row|
  {
    seq(|row|, j requires 0 <= j < |row| => Take(show(row[j]), 15))
  }

  /** The sample table's cells: the header and the first 15 rows. */
  function SampleCells(t: Table, show: Option<Cell> -> string): seq<seq<string>>
  {
    var n := Min(15, |t.rows|);
    [SampleHeader(t)] + seq(n, i requires 0 <= i < n => SampleRow(t.rows[i], show))
  }

  /** The sample table: the header and the first 15 rows, every header and
    * cell cut to 15 characters. */
  method SampleTable(t: Table, show: Option<Cell> -> string) returns (cells: seq<seq<string>>)
    ensures |cells| == Min(15, |t.rows|) + 1 && cells[0] == SampleHeader(t)
    ensures forall i :: 0 <= i < |cells| - 1 ==> cells[i + 1] == SampleRow(t.rows[i], show)
    ensures cells == SampleCells(t, show)
  {
    var n := Min(15, |t.rows|);
    cells := [SampleHeader(t)];
    for i := 0 to n
      invariant |cells| == i + 1 && cells[0] == SampleHeader(t)
      invariant forall m :: 0 <= m < i ==> cells[m + 1] == SampleRow(t.rows[m], show)
    {
      cells := cells + [SampleRow(t.rows[i], show)];
    }
  }

  /** No header or cell of the sample is longer than 15 characters, and each
    * is a prefix of the full text. */
  lemma SampleCellsBounded(t: Table, show: Option<Cell> -> string, i: nat, j: nat)
    requires i < |t.rows| && j < |t.rows[i]| && j < |t.columns|
    ensures |SampleHeader(t)[j]| <= 15 && SampleHeader(t)[j] == t.columns[j].name[..|SampleHeader(t)[j]|]
    ensures var c := SampleRow(t.rows[i], show)[j];
            |c| <= 15 && c == show(t.rows[i][j])[..|c|]
  {
  }

  // ------------------------------------------------------------ charts

  /** The charts the view draws, in order: a line chart of the first 20
    * values of each of the first 3 numeric columns; a bar chart of the
    * first 12 values of the first; with a second numeric column, a pie
    * chart of its first 8 values; a histogram of the first column's present
    * values; with a second column, a scatter plot of the first 50 and a
    * combined bar-and-line chart of the first 15 values of both; a box plot
    * of the present values of the first 3 columns. */
  function ChartPlan(t: Table): (r: seq<Chart>)
    requires WellFormed(t) && !NumericEmpty(t)
    ensures |r| == Min(3, |NumericColumns(t.columns)|) + (if |NumericColumns(t.columns)| > 1 then 6 else 3)
  {
    var cols := FirstNumeric(t, 3);
    FirstNumericAt(t, 3);
    LineCharts(t, cols) + OtherCharts(t, cols, |NumericColumns(t.columns)| > 1)
  }

  /** One line chart of the first 20 values per shown column. */
  function LineCharts(t: Table, cols: seq<nat>): (r: seq<Chart>)
    requires forall k :: 0 <= k < |cols| ==> NumericAt(t, cols[k])
    ensures |r| == |cols|
    ensures forall c :: c in r ==> c.Line? && |c.values| <= 20
  {
    seq(|cols|, k requires 0 <= k < |cols| => assert NumericAt(t, cols[k]); Line(t.columns[cols[k]].name, Head(t, cols[k], 20)))
  }

  /** The box plot of the shown columns. */
  function BoxOf(t: Table, cols: seq<nat>): (c: Chart)
    requires forall k :: 0 <= k < |cols| ==> NumericAt(t, cols[k])
    ensures c.BoxPlot? && |c.columns| == |c.groups| == |cols|
  {
    BoxPlot(seq(|cols|, k requires 0 <= k < |cols| => assert NumericAt(t, cols[k]); t.columns[cols[k]].name),
            seq(|cols|, k requires 0 <= k < |cols| => assert NumericAt(t, cols[k]); ColumnValues(t.rows, cols[k])))
  }

  /** What each non-line chart is given. */
  predicate OtherFits(t: Table, cols: seq<nat>, c: Chart)
    requires |cols| > 0 && NumericAt(t, cols[0])
  {
    !c.Line? && (c.Bar? ==> |c.values| <= 12) && (c.Pie? ==> |c.values| <= 8) &&
    (c.Histogram? ==> |c.data| == NonNullCount(t.rows, cols[0])) &&
    (c.Scatter? ==> |c.xs| == |c.ys| == Min(50, |t.rows|)) &&
    (c.Combined? ==> |c.xs| == |c.ys| == Min(15, |t.rows|)) &&
    (c.BoxPlot? ==> |c.columns| == |c.groups| == |cols|)
  }

  /** Bar, then with two columns pie, histogram, scatter and combined, else
    * the histogram alone; the box plot last. */
  function OtherCharts(t: Table, cols: seq<nat>, two: bool): (r: seq<Chart>)
    requires forall k :: 0 <= k < |cols| ==> NumericAt(t, cols[k])
    requires |cols| > 0 && (two ==> |cols| > 1)
    ensures |r| == if two then 6 else 3
    ensures forall c :: c in r ==> OtherFits(t, cols, c)
  {
    var c0 := cols[0];
    assert NumericAt(t, c0);
    var n0 := t.columns[c0].name;
    ColumnValuesCount(t.rows, c0);
    if two then
      var c1 := cols[1];
      assert NumericAt(t, c1);
      var n1 := t.columns[c1].name;
      [Bar(n0, Head(t, c0, 12)), Pie(n1, Head(t, c1, 8)), Histogram(n0, ColumnValues(t.rows, c0)),
       Scatter(n0, n1, Head(t, c0, 50), Head(t, c1, 50)), Combined(n0, n1, Head(t, c0, 15), Head(t, c1, 15)),
       BoxOf(t, cols)]
    else
      [Bar(n0, Head(t, c0, 12)), Histogram(n0, ColumnValues(t.rows, c0)), BoxOf(t, cols)]
  }

  /** What each planned chart is given: at most 20, 12 and 8 values for
    * line, bar and pie; the histogram gets every present value of its
    * column; scatter and combined get equally many values on both axes;
    * the box plot one group per labelled column. */
  lemma ChartPlanFacts(t: Table, i: nat)
    requires WellFormed(t) && !NumericEmpty(t) && i < |ChartPlan(t)|
    ensures var c := ChartPlan(t)[i];
            (c.Line? ==> |c.values| <= 20) && (c.Bar? ==> |c.values| <= 12) && (c.Pie? ==> |c.values| <= 8) &&
            (c.Histogram? ==> |c.data| == NonNullCount(t.rows, NumericColumns(t.columns)[0])) &&
            (c.Scatter? ==> |c.xs| == |c.ys| == Min(50, |t.rows|)) &&
            (c.Combined? ==> |c.xs| == |c.ys| == Min(15, |t.rows|)) &&
            (c.BoxPlot? ==> |c.columns| == |c.groups| == Min(3, |NumericColumns(t.columns)|))
  {
    var cols := FirstNumeric(t, 3);
    FirstNumericAt(t, 3);
    var lines := LineCharts(t, cols);
    var others := OtherCharts(t, cols, |NumericColumns(t.columns)| > 1);
    assert ChartPlan(t) == lines + others;
    if i < |lines| {
      assert ChartPlan(t)[i] in lines;
    } else {
      assert ChartPlan(t)[i] == others[i - |lines|];
      assert OtherFits(t, cols, others[i - |lines|]);
    }
  }

  /** The index of the first chart that cannot be drawn, or the number of
    * charts when every one can. */
  function FirstFailure(plan: seq<Chart>, drawable: Chart -> bool): (r: nat)
    ensures r <= |plan|
    ensures forall k :: 0 <= k < r ==> drawable(plan[k])
    ensures r < |plan| ==> !drawable(plan[r])
  {
    if plan == [] || !drawable(plan[0]) then 0 else 1 + FirstFailure(plan[1..], drawable)
  }

  /** The images and spacers the first n charts contribute: an image is
    * dropped, with its spacer, when it cannot be embedded. */
  function Embedded(plan: seq<Chart>, embeddable: Chart -> bool, n: nat): (r: seq<Element>)
    requires n <= |plan|
  {
    if n == 0 then []
    else Embedded(plan, embeddable, n - 1) + (if embeddable(plan[n - 1]) then [Image(plan[n - 1]), Spacer] else [])
  }

  const ChartsHeading := "Charts & Visualizations"
  const ChartsFallback := "Charts section generated"

  /** The charts section: the heading, the embedded charts up to the first
    * that cannot be drawn, then a page break when all were drawn or the
    * fallback paragraph when drawing stopped early. */
  function ChartsPart(plan: seq<Chart>, drawable: Chart -> bool, embeddable: Chart -> bool): seq<Element>
  {
    var f := FirstFailure(plan, drawable);
    [Heading(ChartsHeading)] + Embedded(plan, embeddable, f) +
    (if f == |plan| then [PageBreak] else [Para(ChartsFallback)])
  }

  /** Draws the planned charts one by one, stopping at the first that cannot
    * be drawn. */
  method RenderCharts(plan: seq<Chart>, drawable: Chart -> bool, embeddable: Chart -> bool) returns (out: seq<Element>)
    ensures out == ChartsPart(plan, drawable, embeddable)
  {
    out := [Heading(ChartsHeading)];
    var i := 0;
    while i < |plan| && drawable(plan[i])
      invariant i <= |plan| && forall k :: 0 <= k < i ==> drawable(plan[k])
      invariant out == [Heading(ChartsHeading)] + Embedded(plan, embeddable, i)
    {
      if embeddable(plan[i]) {
        out := out + [Image(plan[i]), Spacer];
      }
      i := i + 1;
    }
    out := out + (if i == |plan| then [PageBreak] else [Para(ChartsFallback)]);
  }

  /** Every image among the first n charts' output is one of those charts
    * that could be embedded; everything else is a spacer. */
  lemma {:induction false} EmbeddedSound(plan: seq<Chart>, embeddable: Chart -> bool, n: nat, i: nat)
    requires n <= |plan| && i < |Embedded(plan, embeddable, n)|
    ensures var e := Embedded(plan, embeddable, n)[i];
            e == Spacer || exists k :: 0 <= k < n && embeddable(plan[k]) && e == Image(plan[k])
  {
    var p := Embedded(plan, embeddable, n - 1);
    if i < |p| {
      EmbeddedSound(plan, embeddable, n - 1, i);
      assert Embedded(plan, embeddable, n)[i] == p[i];
    }
  }

  /** When every chart can be embedded, each appears, in plan order, as an
    * image followed by a spacer. */
  lemma {:induction false} EmbeddedAll(plan: seq<Chart>, embeddable: Chart -> bool, n: nat)
    requires n <= |plan| && forall k :: 0 <= k < n ==> embeddable(plan[k])
    ensures |Embedded(plan, embeddable, n)| == 2 * n
    ensures forall k :: 0 <= k < n ==>
              Embedded(plan, embeddable, n)[2 * k] == Image(plan[k]) && Embedded(plan, embeddable, n)[2 * k + 1] == Spacer
  {
    if n > 0 {
      EmbeddedAll(plan, embeddable, n - 1);
    }
  }

  /** No chart at or after the first one that cannot be drawn reaches the
    * report, and an image in the section is always a drawable, embeddable
    * chart of the plan. */
  lemma ChartsAbort(plan: seq<Chart>, drawable: Chart -> bool, embeddable: Chart -> bool, c: Chart)
    requires Image(c) in Embedded(plan, embeddable, FirstFailure(plan, drawable))
    ensures exists k :: 0 <= k < FirstFailure(plan, drawable) && plan[k] == c && drawable(c) && embeddable(c)
  {
    var f := FirstFailure(plan, drawable);
    var i :| 0 <= i < |Embedded(plan, embeddable, f)| && Embedded(plan, embeddable, f)[i] == Image(c);
    EmbeddedSound(plan, embeddable, f, i);
  }

  // ------------------------------------------------------------ the whole report

  function InfoCells(filename: string, username: string, uploadId: string, stamp: string): seq<seq<string>>
  {
    [["Report Generated:", stamp], ["File Name:", filename], ["Generated By:", username], ["Upload ID:", uploadId]]
  }

  function OverviewCells(t: Table, memory: string): seq<seq<string>>
  {
    [["Total Rows:", NatToString(|t.rows|)], ["Total Columns:", NatToString(|t.columns|)], ["Memory Usage:", memory]]
  }

  function Footer(stamp: string): string
  {
    "Generated by Chemizer Analytics | " + stamp
  }

  predicate IsHeading(e: Element) { e.Heading? }

  /** The section headings of a report, in order. */
  function Headings(es: seq<Element>): seq<Element>
  {
    Filter(es, IsHeading)
  }

  /** The section headings: the charts section only when plotting is
    * available and the numeric frame is not empty. */
  function ReportHeadings(charts: bool): seq<Element>
  {
    [Heading("Dataset Overview"), Heading("Column Information"), Heading("Key Highlights"),
     Heading("Statistical Summary"), Heading("Missing Values Analysis"), Heading("Distribution Analysis")] +
    (if charts then [Heading(ChartsHeading)] else []) +
    [Heading("Data Sample (First 15 Rows)")]
  }

  /** An element that is neither a heading nor a chart. */
  predicate Plain(e: Element) { !e.Heading? && !e.Image? }

  lemma {:induction false} NoHeadings(es: seq<Element>)
    requires forall e :: e in es ==> !e.Heading?
    ensures Headings(es) == []
  {
    if es != [] {
      assert es[0] in es;
      NoHeadings(es[1..]);
    }
  }

  /** Appending a piece appends its headings. */
  lemma HeadingsAppend(a: seq<Element>, b: seq<Element>)
    ensures Headings(a + b) == Headings(a) + Headings(b)
  {
    FilterAppend(a, b, IsHeading);
  }

  /** A heading followed by plain elements. */
  function Section(h: string, body: seq<Element>): seq<Element>
  {
    [Heading(h)] + body
  }

  lemma SectionHeadings(h: string, body: seq<Element>)
    requires forall e :: e in body ==> Plain(e)
    ensures Headings(Section(h, body)) == [Heading(h)]
  {
    HeadingsAppend([Heading(h)], body);
    NoHeadings(body);
  }

  /** Title, generation info and dataset overview, up to the heading of
    * the column information. */
  function FrontMatter(t: Table, filename: string, username: string, uploadId: string, stamp: string, memory: string): seq<Element>
  {
    [Title("Data Analysis Report"), Spacer, Grid(InfoCells(filename, username, uploadId, stamp)), Spacer] +
    Section("Dataset Overview", [Grid(OverviewCells(t, memory)), Spacer]) + Section("Column Information", [])
  }

  lemma FrontMatterHeadings(t: Table, filename: string, username: string, uploadId: string, stamp: string, memory: string)
    ensures Headings(FrontMatter(t, filename, username, uploadId, stamp, memory)) ==
            [Heading("Dataset Overview"), Heading("Column Information")]
  {
    var a := [Title("Data Analysis Report"), Spacer, Grid(InfoCells(filename, username, uploadId, stamp)), Spacer];
    var b := Section("Dataset Overview", [Grid(OverviewCells(t, memory)), Spacer]);
    var c := Section("Column Information", []);
    NoHeadings(a);
    SectionHeadings("Dataset Overview", [Grid(OverviewCells(t, memory)), Spacer]);
    SectionHeadings("Column Information", []);
    HeadingsAppend(a, b);
    HeadingsAppend(a + b, c);
  }

  const NoColumnsText := "No columns to display"
  const NoNumericText := "No numeric columns found for statistical analysis."
  const NoMissingText := "\U{2713} No missing values found in the dataset."

  /** The column-information table or its placeholder, then a page break. */
  function ColumnInfoBody(t: Table): (r: seq<Element>)
    requires WellFormed(t)
    ensures forall e :: e in r ==> Plain(e)
  {
    TableOrPlaceholder(ColumnInfoCells(t), NoColumnsText) + [PageBreak]
  }

  /** The placeholder appears exactly when the table has no column;
    * otherwise the section is the table of every column and a page break. */
  lemma ColumnInfoBodyFacts(t: Table)
    requires WellFormed(t)
    ensures Para(NoColumnsText) in ColumnInfoBody(t) <==> |t.columns| == 0
    ensures |t.columns| == 0 ==> ColumnInfoBody(t) == [Para(NoColumnsText), PageBreak]
    ensures |t.columns| > 0 ==> ColumnInfoBody(t) == [Grid(ColumnInfoCells(t)), PageBreak] &&
                                |ColumnInfoCells(t)| == |t.columns| + 1
  {
    assert |ColumnInfoCells(t)| == |t.columns| + 1;
  }

  method ColumnInfoSection(t: Table) returns (out: seq<Element>)
    requires WellFormed(t)
    ensures out == ColumnInfoBody(t)
  {
    var info := ColumnInfoTable(t);
    out := TableOrPlaceholder(info, NoColumnsText) + [PageBreak];
  }

  /** The highlight paragraphs, then a page break. */
  function HighlightsBody(t: Table, fmt: Fmt, sqrt: real -> real): (r: seq<Element>)
    requires WellFormed(t)
    ensures forall e :: e in r ==> Plain(e)
  {
    Paragraphs(HighlightTexts(t, fmt, sqrt)) + [PageBreak]
  }

  /** One paragraph and spacer per covered column, in order, then the page
    * break; with an empty numeric frame only the page break, otherwise one
    * paragraph for each of the first three numeric columns. */
  lemma HighlightsBodyFacts(t: Table, fmt: Fmt, sqrt: real -> real)
    requires WellFormed(t)
    ensures var cols := HighlightColumns(t);
            var b := HighlightsBody(t, fmt, sqrt);
            |b| == 2 * |cols| + 1 && b[2 * |cols|] == PageBreak &&
            (NumericEmpty(t) ==> b == [PageBreak]) &&
            (!NumericEmpty(t) ==> |cols| == Min(3, |NumericColumns(t.columns)|) && |cols| > 0) &&
            forall k :: 0 <= k < |cols| ==>
              b[2 * k] == Para(HighlightText(t, cols[k], fmt, sqrt)) && b[2 * k + 1] == Spacer
  {
    var texts := HighlightTexts(t, fmt, sqrt);
    forall k | 0 <= k < |texts|
      ensures Paragraphs(texts)[2 * k] == Para(texts[k]) && Paragraphs(texts)[2 * k + 1] == Spacer
    {
      ParagraphsAt(texts, k);
    }
  }

  method HighlightsSection(t: Table, fmt: Fmt, sqrt: real -> real) returns (out: seq<Element>)
    requires WellFormed(t)
    ensures out == HighlightsBody(t, fmt, sqrt)
  {
    var hl := Highlights(t, fmt, sqrt);
    out := hl + [PageBreak];
  }

  /** The statistics table, or its placeholder when the numeric frame is
    * empty, then a spacer. */
  function SummaryBody(t: Table, fmt: Fmt, sqrt: real -> real): (r: seq<Element>)
    requires WellFormed(t)
    ensures forall e :: e in r ==> Plain(e)
  {
    if !NumericEmpty(t) then [Grid(StatsCells(t, fmt, sqrt)), Spacer] else [Para(NoNumericText), Spacer]
  }

  /** The placeholder appears exactly when the numeric frame is empty;
    * otherwise the table has the header and the eight statistics. */
  lemma SummaryBodyFacts(t: Table, fmt: Fmt, sqrt: real -> real)
    requires WellFormed(t)
    ensures Para(NoNumericText) in SummaryBody(t, fmt, sqrt) <==> NumericEmpty(t)
    ensures !NumericEmpty(t) ==> SummaryBody(t, fmt, sqrt)[0] == Grid(StatsCells(t, fmt, sqrt)) &&
                                 |StatsCells(t, fmt, sqrt)| == 9
  {
  }

  method SummarySection(t: Table, fmt: Fmt, sqrt: real -> real) returns (out: seq<Element>)
    requires WellFormed(t)
    ensures out == SummaryBody(t, fmt, sqrt)
  {
    if !NumericEmpty(t) {
      var st := StatsTable(t, fmt, sqrt);
      out := [Grid(st), Spacer];
    } else {
      out := [Para(NoNumericText), Spacer];
    }
  }

  /** The missing-values table's cells. */
  function MissingCells(t: Table, fmt: Fmt): seq<seq<string>>
    requires WellFormed(t)
  {
    [MissingHeader] + MissingRows(t, |t.columns|, fmt)
  }

  /** The missing-values table or its placeholder, a spacer and a page break. */
  function MissingBody(t: Table, fmt: Fmt): (r: seq<Element>)
    requires WellFormed(t)
    ensures forall e :: e in r ==> Plain(e)
  {
    TableOrPlaceholder(MissingCells(t, fmt), NoMissingText) + [Spacer, PageBreak]
  }

  /** The placeholder appears exactly when no column has a missing cell;
    * otherwise the section shows the table. */
  lemma MissingBodyFacts(t: Table, fmt: Fmt)
    requires WellFormed(t)
    ensures Para(NoMissingText) in MissingBody(t, fmt) <==>
              forall j :: 0 <= j < |t.columns| ==> NullCount(t.rows, j) == 0
    ensures (exists j :: 0 <= j < |t.columns| && NullCount(t.rows, j) > 0) ==>
              MissingBody(t, fmt) == [Grid(MissingCells(t, fmt)), Spacer, PageBreak]
  {
    MissingRowsEmpty(t, |t.columns|, fmt);
    if exists j :: 0 <= j < |t.columns| && NullCount(t.rows, j) > 0 {
      var j :| 0 <= j < |t.columns| && NullCount(t.rows, j) > 0;
      assert MissingRows(t, |t.columns|, fmt) != [] by {
        if MissingRows(t, |t.columns|, fmt) == [] {
          assert forall k :: 0 <= k < |t.columns| ==> NullCount(t.rows, k) == 0;
          assert false;
        }
      }
      assert |MissingCells(t, fmt)| > 1;
    }
  }

  method MissingSection(t: Table, fmt: Fmt) returns (out: seq<Element>)
    requires WellFormed(t)
    ensures out == MissingBody(t, fmt)
  {
    var mt := MissingTable(t, fmt);
    out := TableOrPlaceholder(mt, NoMissingText) + [Spacer, PageBreak];
  }

  /** The distribution table when the numeric frame is not empty, then a
    * page break. */
  function DistributionBody(t: Table, fmt: Fmt, sqrt: real -> real): (r: seq<Element>)
    requires WellFormed(t)
    ensures forall e :: e in r ==> Plain(e)
  {
    if !NumericEmpty(t) && |DistributionCells(t, fmt, sqrt)| > 1 then [Grid(DistributionCells(t, fmt, sqrt)), PageBreak]
    else [PageBreak]
  }

  /** The table is shown exactly when the numeric frame is not empty (its
    * inner check never fails then), with one row per shown column. */
  lemma DistributionBodyFacts(t: Table, fmt: Fmt, sqrt: real -> real)
    requires WellFormed(t)
    ensures !NumericEmpty(t) ==>
              DistributionBody(t, fmt, sqrt) == [Grid(DistributionCells(t, fmt, sqrt)), PageBreak] &&
              |DistributionCells(t, fmt, sqrt)| == Min(5, |NumericColumns(t.columns)|) + 1
    ensures NumericEmpty(t) ==> DistributionBody(t, fmt, sqrt) == [PageBreak]
  {
  }

  method DistributionSection(t: Table, fmt: Fmt, sqrt: real -> real) returns (out: seq<Element>)
    requires WellFormed(t)
    ensures out == DistributionBody(t, fmt, sqrt)
  {
    out := [PageBreak];
    if !NumericEmpty(t) {
      var dt := DistributionTable(t, fmt, sqrt);
      if |dt| > 1 {
        out := [Grid(dt), PageBreak];
      }
    }
  }

  /** The charts section when plotting is available and there is numeric
    * data, else nothing. */
  function ChartsBody(t: Table, hasPlotting: bool, drawable: Chart -> bool, embeddable: Chart -> bool): seq<Element>
    requires WellFormed(t)
  {
    if hasPlotting && !NumericEmpty(t) then ChartsPart(ChartPlan(t), drawable, embeddable) else []
  }

  method ChartSection(t: Table, hasPlotting: bool, drawable: Chart -> bool, embeddable: Chart -> bool)
    returns (out: seq<Element>)
    requires WellFormed(t)
    ensures out == ChartsBody(t, hasPlotting, drawable, embeddable)
    ensures Headings(out) == if hasPlotting && !NumericEmpty(t) then [Heading(ChartsHeading)] else []
    ensures forall c :: Image(c) in out ==>
              hasPlotting && !NumericEmpty(t) && c in ChartPlan(t) && drawable(c) && embeddable(c)
  {
    out := [];
    if hasPlotting && !NumericEmpty(t) {
      var plan := ChartPlan(t);
      out := RenderCharts(plan, drawable, embeddable);
      RenderedSound(plan, drawable, embeddable);
    }
  }

  /** What the section embeds: no headings, and only drawable, embeddable
    * charts of the plan. */
  lemma EmbeddedImages(plan: seq<Chart>, drawable: Chart -> bool, embeddable: Chart -> bool)
    ensures forall e :: e in Embedded(plan, embeddable, FirstFailure(plan, drawable)) ==>
              !e.Heading? && (e.Image? ==> e.chart in plan && drawable(e.chart) && embeddable(e.chart))
  {
    var f := FirstFailure(plan, drawable);
    var em := Embedded(plan, embeddable, f);
    forall e | e in em ensures !e.Heading? && (e.Image? ==> e.chart in plan && drawable(e.chart) && embeddable(e.chart)) {
      if e.Image? {
        ChartsAbort(plan, drawable, embeddable, e.chart);
      } else {
        var i :| 0 <= i < |em| && em[i] == e;
        EmbeddedSound(plan, embeddable, f, i);
      }
    }
  }

  /** The rendered section has the one heading, and every image in it is a
    * drawable, embeddable chart of the plan. */
  lemma RenderedSound(plan: seq<Chart>, drawable: Chart -> bool, embeddable: Chart -> bool)
    ensures var f := FirstFailure(plan, drawable);
            var out := [Heading(ChartsHeading)] + Embedded(plan, embeddable, f) +
                       (if f == |plan| then [PageBreak] else [Para(ChartsFallback)]);
            Headings(out) == [Heading(ChartsHeading)] &&
            forall c :: Image(c) in out ==> c in plan && drawable(c) && embeddable(c)
  {
    var f := FirstFailure(plan, drawable);
    var em := Embedded(plan, embeddable, f);
    EmbeddedImages(plan, drawable, embeddable);
    var last := if f == |plan| then [PageBreak] else [Para(ChartsFallback)];
    UnderHeading(ChartsHeading, em, last);
  }

  /** A heading over elements that are not headings: the heading is the
    * only one, and every image comes from the first part. */
  lemma UnderHeading(h: string, em: seq<Element>, last: seq<Element>)
    requires forall e :: e in em ==> !e.Heading?
    requires forall e :: e in last ==> Plain(e)
    ensures Headings([Heading(h)] + em + last) == [Heading(h)]
    ensures forall c :: Image(c) in [Heading(h)] + em + last ==> Image(c) in em
  {
    NoHeadings(em + last);
    HeadingsAppend([Heading(h)], em + last);
    assert [Heading(h)] + em + last == [Heading(h)] + (em + last);
  }

  /** The column information, highlights, statistical summary, missing
    * values and distribution sections, in that order. */
  function ReportMiddle(t: Table, fmt: Fmt, sqrt: real -> real): seq<Element>
    requires WellFormed(t)
  {
    ColumnInfoBody(t) + Section("Key Highlights", HighlightsBody(t, fmt, sqrt)) +
    Section("Statistical Summary", SummaryBody(t, fmt, sqrt)) +
    Section("Missing Values Analysis", MissingBody(t, fmt)) +
    Section("Distribution Analysis", DistributionBody(t, fmt, sqrt))
  }

  /** The data sample (at most fifteen rows) and the footer. */
  function SampleSection(t: Table, show: Option<Cell> -> string, footerStamp: string): seq<Element>
    requires WellFormed(t)
  {
    Section("Data Sample (First 15 Rows)", [Grid(SampleCells(t, show)), Spacer, Para(Footer(footerStamp))])
  }

  /** The whole report document. `stamp` and `footerStamp` are the two
    * readings of the clock. */
  function ReportDocument(t: Table, filename: string, username: string, uploadId: string,
                          stamp: string, footerStamp: string, memory: string,
                          fmt: Fmt, show: Option<Cell> -> string, sqrt: real -> real,
                          hasPlotting: bool, drawable: Chart -> bool, embeddable: Chart -> bool): seq<Element>
    requires WellFormed(t)
  {
    FrontMatter(t, filename, username, uploadId, stamp, memory) + ReportMiddle(t, fmt, sqrt) +
    ChartsBody(t, hasPlotting, drawable, embeddable) + SampleSection(t, show, footerStamp)
  }

  /** The report's document: title, generation info, dataset overview,
    * column information, highlights, statistical summary, missing values,
    * distribution, the charts (when plotting is available and there is
    * numeric data) and the data sample, with the footer last. The column
    * information starts right after the front matter, and the sample table
    * is third from the end. */
  method BuildReport(t: Table, filename: string, username: string, uploadId: string,
                     stamp: string, footerStamp: string, memory: string,
                     fmt: Fmt, show: Option<Cell> -> string, sqrt: real -> real,
                     hasPlotting: bool, drawable: Chart -> bool, embeddable: Chart -> bool)
    returns (out: seq<Element>)
    requires WellFormed(t)
    ensures out == ReportDocument(t, filename, username, uploadId, stamp, footerStamp, memory, fmt, show, sqrt,
                                  hasPlotting, drawable, embeddable)
    ensures |out| > 10
    ensures out[..8] == [Title("Data Analysis Report"), Spacer, Grid(InfoCells(filename, username, uploadId, stamp)), Spacer,
                         Heading("Dataset Overview"), Grid(OverviewCells(t, memory)), Spacer, Heading("Column Information")]
    ensures out[8..8 + |ColumnInfoBody(t)|] == ColumnInfoBody(t)
    ensures out[|out| - 3..] == [Grid(SampleCells(t, show)), Spacer, Para(Footer(footerStamp))]
    ensures Headings(out) == ReportHeadings(hasPlotting && !NumericEmpty(t))
    ensures forall c :: Image(c) in out ==>
              hasPlotting && !NumericEmpty(t) && c in ChartPlan(t) && drawable(c) && embeddable(c)
  {
    var front := FrontMatter(t, filename, username, uploadId, stamp, memory);
    var middle := ReportBody(t, fmt, sqrt);
    var charts := ChartSection(t, hasPlotting, drawable, embeddable);
    var sample := SampleTable(t, show);
    out := front + middle + charts + Section("Data Sample (First 15 Rows)", [Grid(sample), Spacer, Para(Footer(footerStamp))]);
    DocumentFacts(t, filename, username, uploadId, stamp, footerStamp, memory, fmt, show, sqrt,
                  hasPlotting, drawable, embeddable);
    FrontMatterShape(t, filename, username, uploadId, stamp, memory);
  }

  lemma FrontMatterShape(t: Table, filename: string, username: string, uploadId: string, stamp: string, memory: string)
    ensures FrontMatter(t, filename, username, uploadId, stamp, memory) ==
            [Title("Data Analysis Report"), Spacer, Grid(InfoCells(filename, username, uploadId, stamp)), Spacer,
             Heading("Dataset Overview"), Grid(OverviewCells(t, memory)), Spacer, Heading("Column Information")]
  {
  }

  /** The document's layout and headings, and where its images come from. */
  lemma DocumentFacts(t: Table, filename: string, username: string, uploadId: string,
                      stamp: string, footerStamp: string, memory: string,
                      fmt: Fmt, show: Option<Cell> -> string, sqrt: real -> real,
                      hasPlotting: bool, drawable: Chart -> bool, embeddable: Chart -> bool)
    requires WellFormed(t)
    ensures var out := ReportDocument(t, filename, username, uploadId, stamp, footerStamp, memory, fmt, show, sqrt,
                                      hasPlotting, drawable, embeddable);
            |out| > 10 &&
            out[..8] == FrontMatter(t, filename, username, uploadId, stamp, memory) &&
            out[8..8 + |ColumnInfoBody(t)|] == ColumnInfoBody(t) &&
            out[|out| - 3..] == [Grid(SampleCells(t, show)), Spacer, Para(Footer(footerStamp))] &&
            Headings(out) == ReportHeadings(hasPlotting && !NumericEmpty(t)) &&
            forall c :: Image(c) in out ==>
              hasPlotting && !NumericEmpty(t) && c in ChartPlan(t) && drawable(c) && embeddable(c)
  {
    var front := FrontMatter(t, filename, username, uploadId, stamp, memory);
    var middle := ReportMiddle(t, fmt, sqrt);
    var charts := ChartsBody(t, hasPlotting, drawable, embeddable);
    var last := SampleSection(t, show, footerStamp);
    MiddleStartsWithColumnInfo(t, fmt, sqrt);
    Layout(front, middle, ColumnInfoBody(t), charts, last);
    DocumentHeadings(t, filename, username, uploadId, stamp, footerStamp, memory, fmt, show, sqrt,
                     hasPlotting, drawable, embeddable);
  }

  lemma DocumentHeadings(t: Table, filename: string, username: string, uploadId: string,
                         stamp: string, footerStamp: string, memory: string,
                         fmt: Fmt, show: Option<Cell> -> string, sqrt: real -> real,
                         hasPlotting: bool, drawable: Chart -> bool, embeddable: Chart -> bool)
    requires WellFormed(t)
    ensures var out := ReportDocument(t, filename, username, uploadId, stamp, footerStamp, memory, fmt, show, sqrt,
                                      hasPlotting, drawable, embeddable);
            Headings(out) == ReportHeadings(hasPlotting && !NumericEmpty(t)) &&
            forall c :: Image(c) in out ==>
              hasPlotting && !NumericEmpty(t) && c in ChartPlan(t) && drawable(c) && embeddable(c)
  {
    FrontMatterFacts(t, filename, username, uploadId, stamp, memory);
    MiddleFacts(t, fmt, sqrt);
    ChartsBodyFacts(t, hasPlotting, drawable, embeddable);
    SampleSectionFacts(t, show, footerStamp);
    Assembled(FrontMatter(t, filename, username, uploadId, stamp, memory), ReportMiddle(t, fmt, sqrt),
              ChartsBody(t, hasPlotting, drawable, embeddable), SampleSection(t, show, footerStamp),
              hasPlotting && !NumericEmpty(t));
  }

  lemma FrontMatterFacts(t: Table, filename: string, username: string, uploadId: string, stamp: string, memory: string)
    ensures var front := FrontMatter(t, filename, username, uploadId, stamp, memory);
            Headings(front) == [Heading("Dataset Overview"), Heading("Column Information")] &&
            forall e :: e in front ==> !e.Image?
  {
    FrontMatterHeadings(t, filename, username, uploadId, stamp, memory);
    FrontMatterShape(t, filename, username, uploadId, stamp, memory);
  }

  /** The middle sections' headings, and no image among them. */
  lemma MiddleFacts(t: Table, fmt: Fmt, sqrt: real -> real)
    requires WellFormed(t)
    ensures var middle := ReportMiddle(t, fmt, sqrt);
            Headings(middle) == [Heading("Key Highlights"), Heading("Statistical Summary"),
                                 Heading("Missing Values Analysis"), Heading("Distribution Analysis")] &&
            forall e :: e in middle ==> !e.Image?
  {
    MiddleHeadings(ColumnInfoBody(t), HighlightsBody(t, fmt, sqrt), SummaryBody(t, fmt, sqrt),
                   MissingBody(t, fmt), DistributionBody(t, fmt, sqrt));
  }

  lemma SampleSectionFacts(t: Table, show: Option<Cell> -> string, footerStamp: string)
    requires WellFormed(t)
    ensures var last := SampleSection(t, show, footerStamp);
            Headings(last) == [Heading("Data Sample (First 15 Rows)")] && forall e :: e in last ==> !e.Image?
  {
    SectionHeadings("Data Sample (First 15 Rows)", [Grid(SampleCells(t, show)), Spacer, Para(Footer(footerStamp))]);
  }

  /** The charts part's headings and images. */
  lemma ChartsBodyFacts(t: Table, hasPlotting: bool, drawable: Chart -> bool, embeddable: Chart -> bool)
    requires WellFormed(t)
    ensures var out := ChartsBody(t, hasPlotting, drawable, embeddable);
            Headings(out) == (if hasPlotting && !NumericEmpty(t) then [Heading(ChartsHeading)] else []) &&
            forall c :: Image(c) in out ==>
              hasPlotting && !NumericEmpty(t) && c in ChartPlan(t) && drawable(c) && embeddable(c)
  {
    if hasPlotting && !NumericEmpty(t) {
      RenderedSound(ChartPlan(t), drawable, embeddable);
    }
  }

  /** Where the pieces sit in the assembled document. */
  lemma Layout(front: seq<Element>, middle: seq<Element>, ci: seq<Element>, charts: seq<Element>, last: seq<Element>)
    requires |front| == 8 && |last| == 4
    requires |ci| <= |middle| && middle[..|ci|] == ci
    ensures var out := front + middle + charts + last;
            out[..8] == front && out[8..8 + |ci|] == ci && out[|out| - 3..] == last[1..]
  {
    var out := front + middle + charts + last;
    assert out[8..8 + |ci|] == middle[..|ci|];
  }

  lemma MiddleStartsWithColumnInfo(t: Table, fmt: Fmt, sqrt: real -> real)
    requires WellFormed(t)
    ensures var ci := ColumnInfoBody(t);
            |ci| <= |ReportMiddle(t, fmt, sqrt)| && ReportMiddle(t, fmt, sqrt)[..|ci|] == ci
  {
    var a := Section("Key Highlights", HighlightsBody(t, fmt, sqrt));
    var b := Section("Statistical Summary", SummaryBody(t, fmt, sqrt));
    var c := Section("Missing Values Analysis", MissingBody(t, fmt));
    var d := Section("Distribution Analysis", DistributionBody(t, fmt, sqrt));
    PrefixOfAppend(ColumnInfoBody(t), a, b, c, d);
  }

  lemma PrefixOfAppend(x: seq<Element>, a: seq<Element>, b: seq<Element>, c: seq<Element>, d: seq<Element>)
    ensures |x| <= |x + a + b + c + d| && (x + a + b + c + d)[..|x|] == x
  {
    assert x + a + b + c + d == x + (a + b + c + d);
  }

  /** The column information, highlights, statistical summary, missing
    * values and distribution sections, in that order. */
  method ReportBody(t: Table, fmt: Fmt, sqrt: real -> real) returns (middle: seq<Element>)
    requires WellFormed(t)
    ensures middle == ReportMiddle(t, fmt, sqrt)
    ensures Headings(middle) == [Heading("Key Highlights"), Heading("Statistical Summary"),
                                 Heading("Missing Values Analysis"), Heading("Distribution Analysis")]
    ensures forall e :: e in middle ==> !e.Image?
  {
    var ci := ColumnInfoSection(t);
    var hl := HighlightsSection(t, fmt, sqrt);
    var su := SummarySection(t, fmt, sqrt);
    var mi := MissingSection(t, fmt);
    var di := DistributionSection(t, fmt, sqrt);
    middle := ci + Section("Key Highlights", hl) + Section("Statistical Summary", su) +
              Section("Missing Values Analysis", mi) + Section("Distribution Analysis", di);
    MiddleHeadings(ci, hl, su, mi, di);
  }

  /** Putting the pieces together: the headings are the report's headings
    * and every chart comes from the charts section. */
  lemma Assembled(front: seq<Element>, middle: seq<Element>, charts: seq<Element>, last: seq<Element>, chartsOn: bool)
    requires Headings(front) == [Heading("Dataset Overview"), Heading("Column Information")]
    requires Headings(middle) == [Heading("Key Highlights"), Heading("Statistical Summary"),
                                  Heading("Missing Values Analysis"), Heading("Distribution Analysis")]
    requires Headings(charts) == if chartsOn then [Heading(ChartsHeading)] else []
    requires Headings(last) == [Heading("Data Sample (First 15 Rows)")]
    requires forall e :: e in front ==> !e.Image?
    requires forall e :: e in middle ==> !e.Image?
    requires forall e :: e in last ==> !e.Image?
    ensures Headings(front + middle + charts + last) == ReportHeadings(chartsOn)
    ensures forall c :: Image(c) in front + middle + charts + last ==> Image(c) in charts
  {
    HeadingsAppend(front, middle);
    HeadingsAppend(front + middle, charts);
    HeadingsAppend(front + middle + charts, last);
    forall c | Image(c) in front + middle + charts + last
      ensures Image(c) in charts
    {
      assert Image(c) in front + middle + last || Image(c) in charts;
    }
  }

  lemma MiddleHeadings(ci: seq<Element>, hl: seq<Element>, su: seq<Element>, mi: seq<Element>, di: seq<Element>)
    requires forall e :: e in ci ==> Plain(e)
    requires forall e :: e in hl ==> Plain(e)
    requires forall e :: e in su ==> Plain(e)
    requires forall e :: e in mi ==> Plain(e)
    requires forall e :: e in di ==> Plain(e)
    ensures var m := ci + Section("Key Highlights", hl) + Section("Statistical Summary", su) +
                     Section("Missing Values Analysis", mi) + Section("Distribution Analysis", di);
            Headings(m) == [Heading("Key Highlights"), Heading("Statistical Summary"),
                            Heading("Missing Values Analysis"), Heading("Distribution Analysis")] &&
            forall e :: e in m ==> !e.Image?
  {
    NoHeadings(ci);
    SectionHeadings("Key Highlights", hl);
    SectionHeadings("Statistical Summary", su);
    SectionHeadings("Missing Values Analysis", mi);
    SectionHeadings("Distribution Analysis", di);
    var a := ci + Section("Key Highlights", hl);
    HeadingsAppend(ci, Section("Key Highlights", hl));
    var b := a + Section("Statistical Summary", su);
    HeadingsAppend(a, Section("Statistical Summary", su));
    var c := b + Section("Missing Values Analysis", mi);
    HeadingsAppend(b, Section("Missing Values Analysis", mi));
    HeadingsAppend(c, Section("Distribution Analysis", di));
  }

  // ------------------------------------------------------------ the view

  /** The response: the PDF (as its document and attachment name) or an
    * error with its status. */
  datatype PdfReply = Pdf(attachment: string, document: seq<Element>) | Refused(code: int, error: string)

  function AttachmentName(uploadId: string): string
  {
    "analysis_report_" + uploadId + ".pdf"
  }

  /** `download_pdf_report`: a record the user does not own (or that does
    * not exist) is "Upload not found"; a stored file that is gone is
    * "File not found in storage"; a file the reader cannot read is a 500;
    * otherwise the report of the re-read table. The store is not changed. */
  method DownloadPdfReport(store: UploadStore, user: string, uploadId: string,
                           parse: (string, bool) -> Option<Table>, failure: string,
                           stamp: string, footerStamp: string, memory: string,
                           fmt: Fmt, show: Option<Cell> -> string, sqrt: real -> real,
                           hasPlotting: bool, drawable: Chart -> bool, embeddable: Chart -> bool)
    returns (reply: PdfReply)
    requires forall p, c :: parse(p, c).Some? ==> WellFormed(parse(p, c).value)
    ensures uploadId !in store.records || store.records[uploadId].owner != user ==>
              reply == Refused(404, "Upload not found")
    ensures uploadId in store.records && store.records[uploadId].owner == user ==>
              var u := store.records[uploadId];
              var t := parse(u.filePath, LowerStr(SplitExt(u.filename)) == ".csv");
              if u.filePath !in store.blobs then reply == Refused(404, "File not found in storage")
              else if t.None? then reply == Refused(500, "PDF generation failed: " + failure)
              else reply == Pdf(AttachmentName(uploadId),
                                ReportDocument(t.value, u.filename, user, uploadId, stamp, footerStamp, memory,
                                               fmt, show, sqrt, hasPlotting, drawable, embeddable)) &&
                   |reply.document| > 10 &&
                   Headings(reply.document) == ReportHeadings(hasPlotting && !NumericEmpty(t.value)) &&
                   reply.document[2] == Grid(InfoCells(u.filename, user, uploadId, stamp)) &&
                   reply.document[5] == Grid(OverviewCells(t.value, memory))
  {
    if uploadId !in store.records || store.records[uploadId].owner != user {
      return Refused(404, "Upload not found");
    }
    var u := store.records[uploadId];
    if u.filePath !in store.blobs {
      return Refused(404, "File not found in storage");
    }
    var t := parse(u.filePath, LowerStr(SplitExt(u.filename)) == ".csv");
    if t.None? {
      return Refused(500, "PDF generation failed: " + failure);
    }
    var doc := BuildReport(t.value, u.filename, user, uploadId, stamp, footerStamp, memory, fmt, show, sqrt,
                           hasPlotting, drawable, embeddable);
    assert doc[2] == doc[..8][2] && doc[5] == doc[..8][5];
    reply := Pdf(AttachmentName(uploadId), doc);
  }
}
