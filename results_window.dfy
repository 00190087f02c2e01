/**
 * The desktop results window (desktop-app/ui/results_window.py): which
 * charts the chart section schedules for the numeric columns, the data each
 * plotting routine prepares from the preview, and the column-information
 * panel inferred from the preview. `float()` on a JSON value is a
 * parameter (None where it raises); drawing itself is not modelled.
 */
module ResultsWindow {
  import opened Common
  import opened Json
  import opened Stats

  /** A preview row as received: a JSON object. */
  type Row = seq<(string, Json)>

  /** `float(v)`: None where Python raises. */
  type ToFloat = Json -> Option<real>

  /** `row.get(col)`, with JSON null read as None as Python does. */
  function PyGet(row: Row, col: string): (r: Option<Json>)
    ensures r.Some? ==> r.value != JNull && Get(row, col) == r
    ensures r.None? <==> Get(row, col).None? || Get(row, col) == Some(JNull)
  {
    var v := Get(row, col);
    if v.Some? && v.value != JNull then v else None
  }

  /** `col_data[col] = [row.get(col) for row in data_preview]`. */
  function ColumnData(preview: seq<Row>, col: string): (r: seq<Option<Json>>)
    ensures |r| == |preview|
    ensures forall i :: 0 <= i < |r| ==> r[i] == PyGet(preview[i], col)
  {
    seq(|preview|, i requires 0 <= i < |preview| => PyGet(preview[i], col))
  }

  // ------------------------------------------------------------ plot data

  /** A value `float()` cannot convert. */
  predicate Unconvertible(v: Option<Json>, toFloat: ToFloat)
  {
    v.Some? && toFloat(v.value).None?
  }

  /** `[float(v) if v is not None else 0 for v in data]`, or None when a
    * conversion raises (the plot then shows nothing). */
  function ZeroFilled(data: seq<Option<Json>>, toFloat: ToFloat): (r: Option<seq<real>>)
    ensures r.None? <==> exists i :: 0 <= i < |data| && Unconvertible(data[i], toFloat)
    ensures r.Some? ==> (|r.value| == |data| &&
                         forall i :: 0 <= i < |data| ==>
                           r.value[i] == (if data[i].None? then 0.0 else toFloat(data[i].value).value))
  {
    if data == [] then Some([])
    else if Unconvertible(data[0], toFloat) then None
    else
      var rest := ZeroFilled(data[1..], toFloat);
      if rest.None? then
        assert forall i :: 1 <= i < |data| ==> data[i] == data[1..][i - 1];
        None
      else
        var x := if data[0].None? then 0.0 else toFloat(data[0].value).value;
        assert forall i :: 1 <= i < |data| ==> data[i] == data[1..][i - 1];
        Some([x] + rest.value)
  }

  /** The values that are present, in order. */
  function PresentValues(data: seq<Option<Json>>): (r: seq<Json>)
    ensures |r| == CountIf(data, (v: Option<Json>) => v.Some?)
    ensures forall x :: x in r <==> Some(x) in data
  {
    if data == [] then []
    else
      assert forall x :: Some(x) in data <==> data[0] == Some(x) || Some(x) in data[1..];
      (if data[0].Some? then [data[0].value] else []) + PresentValues(data[1..])
  }

  /** `float` applied to every value, or None when one conversion raises. */
  function ConvertAll(vs: seq<Json>, toFloat: ToFloat): (r: Option<seq<real>>)
    ensures r.None? <==> exists i :: 0 <= i < |vs| && toFloat(vs[i]).None?
    ensures r.Some? ==> (|r.value| == |vs| &&
                         forall k :: 0 <= k < |vs| ==> toFloat(vs[k]) == Some(r.value[k]))
  {
    if vs == [] then Some([])
    else if toFloat(vs[0]).None? then None
    else
      var rest := ConvertAll(vs[1..], toFloat);
      assert forall i :: 1 <= i < |vs| ==> vs[i] == vs[1..][i - 1];
      if rest.None? then None
      else
        var r := [toFloat(vs[0]).value] + rest.value;
        assert forall k :: 1 <= k < |r| ==> r[k] == rest.value[k - 1];
        Some(r)
  }

  /** `[float(x) for x in data if x is not None]`, or None when a
    * conversion raises. */
  function Cleaned(data: seq<Option<Json>>, toFloat: ToFloat): (r: Option<seq<real>>)
    ensures r.None? <==> exists i :: 0 <= i < |data| && Unconvertible(data[i], toFloat)
    ensures r.Some? ==> (|r.value| == |PresentValues(data)| &&
                         forall k :: 0 <= k < |r.value| ==> toFloat(PresentValues(data)[k]) == Some(r.value[k]))
  {
    var vs := PresentValues(data);
    assert (exists i :: 0 <= i < |data| && Unconvertible(data[i], toFloat)) ==>
           exists k :: 0 <= k < |vs| && toFloat(vs[k]).None? by {
      if i :| 0 <= i < |data| && Unconvertible(data[i], toFloat) {
        assert data[i].value in vs;
      }
    }
    assert (exists k :: 0 <= k < |vs| && toFloat(vs[k]).None?) ==>
           exists i :: 0 <= i < |data| && Unconvertible(data[i], toFloat) by {
      if k :| 0 <= k < |vs| && toFloat(vs[k]).None? {
        assert Some(vs[k]) in data;
        var i :| 0 <= i < |data| && data[i] == Some(vs[k]);
        assert Unconvertible(data[i], toFloat);
      }
    }
    ConvertAll(vs, toFloat)
  }

  /** Line, area and scatter plot the first 20 values; the bar chart the
    * first 15. */
  function LineValues(data: seq<Option<Json>>, toFloat: ToFloat): Option<seq<real>>
  {
    ZeroFilled(Take(data, 20), toFloat)
  }

  function BarValues(data: seq<Option<Json>>, toFloat: ToFloat): Option<seq<real>>
  {
    ZeroFilled(Take(data, 15), toFloat)
  }

  function Abs(x: real): real { if x < 0.0 then -x else x }

  /** The pie's slices: `abs(float(v))` of the first 10 values, None as 0. */
  function PieValues(data: seq<Option<Json>>, toFloat: ToFloat): (r: Option<seq<real>>)
    ensures r.Some? ==> |r.value| == Min(10, |data|) && forall i :: 0 <= i < |r.value| ==> r.value[i] >= 0.0
  {
    TakeFacts(data, 10);
    var v := ZeroFilled(Take(data, 10), toFloat);
    if v.None? then None else Some(seq(|v.value|, i requires 0 <= i < |v.value| => Abs(v.value[i])))
  }

  /** The pie is drawn only when its slices sum to more than zero. */
  predicate PieDrawn(data: seq<Option<Json>>, toFloat: ToFloat)
  {
    PieValues(data, toFloat).Some? && Sum(PieValues(data, toFloat).value) > 0.0
  }

  /** A sum of non-negative values is non-negative, and positive exactly
    * when one of them is. */
  lemma {:induction false} NonNegativeSum(xs: seq<real>)
    requires forall i :: 0 <= i < |xs| ==> xs[i] >= 0.0
    ensures Sum(xs) >= 0.0
    ensures Sum(xs) > 0.0 <==> exists i :: 0 <= i < |xs| && xs[i] > 0.0
  {
    if xs != [] {
      var p := xs[..|xs| - 1];
      NonNegativeSum(p);
      assert forall i :: 0 <= i < |p| ==> p[i] == xs[i];
    }
  }

  /** The pie is drawn exactly when one of the first 10 values converts to
    * a non-zero number. */
  lemma PieDrawnIff(data: seq<Option<Json>>, toFloat: ToFloat)
    requires PieValues(data, toFloat).Some?
    ensures PieDrawn(data, toFloat) <==>
              exists i :: 0 <= i < Min(10, |data|) && data[i].Some? && toFloat(data[i].value).value != 0.0
  {
    var vals := PieValues(data, toFloat).value;
    NonNegativeSum(vals);
    TakeFacts(data, 10);
    var head := Take(data, 10);
    var z := ZeroFilled(head, toFloat).value;
    assert forall i :: 0 <= i < |vals| ==> vals[i] == Abs(z[i]);
    assert forall i :: 0 <= i < |vals| ==> head[i] == data[i];
  }

  /** Histogram and box plot draw only when a value is present; the density
    * plot needs two. */
  predicate HistogramDrawn(data: seq<Option<Json>>, toFloat: ToFloat)
  {
    Cleaned(data, toFloat).Some? && |Cleaned(data, toFloat).value| > 0
  }

  predicate DensityDrawn(data: seq<Option<Json>>, toFloat: ToFloat)
  {
    Cleaned(data, toFloat).Some? && |Cleaned(data, toFloat).value| > 1
  }

  lemma {:induction false} CountPresent(data: seq<Option<Json>>)
    ensures CountIf(data, (v: Option<Json>) => v.Some?) > 0 <==> exists i :: 0 <= i < |data| && data[i].Some?
  {
    if data != [] {
      CountPresent(data[1..]);
      assert forall i :: 1 <= i < |data| ==> data[i] == data[1..][i - 1];
    }
  }

  /** A histogram appears exactly when a value is present (and every value
    * converts); the density plot implies the histogram would. */
  lemma DrawnFacts(data: seq<Option<Json>>, toFloat: ToFloat)
    ensures HistogramDrawn(data, toFloat) <==>
              (forall i :: 0 <= i < |data| ==> !Unconvertible(data[i], toFloat)) &&
              exists i :: 0 <= i < |data| && data[i].Some?
    ensures DensityDrawn(data, toFloat) ==> HistogramDrawn(data, toFloat)
  {
    CountPresent(data);
  }

  /** The cumulative plot: the present values in ascending order against
    * k/n for k = 1..n. */
  function CumulativePoints(clean: seq<real>): (r: (seq<real>, seq<real>))
    ensures |r.0| == |r.1| == |clean|
  {
    var n := |clean|;
    (SortReals(clean), seq(n, k requires 0 <= k < n => (k + 1) as real / n as real))
  }

  /** The heights k/n for k = 1..n rise strictly, stay in (0, 1] and end
    * at exactly 1. */
  lemma {:induction false} HeightsFacts(ys: seq<real>, n: nat)
    requires n > 0 && |ys| == n && forall k :: 0 <= k < n ==> ys[k] == (k + 1) as real / n as real
    ensures forall i, j :: 0 <= i < j < n ==> ys[i] < ys[j]
    ensures forall i :: 0 <= i < n ==> 0.0 < ys[i] <= 1.0
    ensures ys[n - 1] == 1.0
  {
    var m := n as real;
    forall i, j | 0 <= i < j < n ensures ys[i] < ys[j] {
      DivLess((i + 1) as real, (j + 1) as real, m);
    }
    forall i | 0 <= i < n ensures 0.0 < ys[i] <= 1.0 {
      DivBounds((i + 1) as real, m);
    }
    assert ys[n - 1] == ((n - 1) + 1) as real / m;
    assert ((n - 1) + 1) as real == m;
    DivSelf(m);
  }

  lemma DivSelf(m: real)
    requires m > 0.0
    ensures m / m == 1.0
  {
  }

  lemma DivLess(a: real, b: real, m: real)
    requires m > 0.0 && a < b
    ensures a / m < b / m
  {
    var x, y := a / m, b / m;
    assert x * m == a && y * m == b;
    assert (y - x) * m == b - a;
  }

  lemma DivBounds(b: real, m: real)
    requires m > 0.0 && 0.0 < b <= m
    ensures 0.0 < b / m <= 1.0
  {
    var y := b / m;
    assert y * m == b;
  }

  /** The curve is a rearrangement of the data in ascending order, and its
    * heights rise strictly to exactly 1 and stay in (0, 1]. */
  lemma CumulativeFacts(clean: seq<real>)
    requires |clean| > 0
    ensures var (xs, ys) := CumulativePoints(clean);
            multiset(xs) == multiset(clean) &&
            (forall i, j :: 0 <= i < j < |xs| ==> xs[i] <= xs[j]) &&
            (forall i, j :: 0 <= i < j < |ys| ==> ys[i] < ys[j]) &&
            (forall i :: 0 <= i < |ys| ==> 0.0 < ys[i] <= 1.0) &&
            ys[|ys| - 1] == 1.0
  {
    SortRealsCorrect(clean);
    HeightsFacts(CumulativePoints(clean).1, |clean|);
  }

  // ------------------------------------------------------------ chart schedule

  datatype PlotKind = LinePlot | BarPlot | HistogramPlot | PiePlot | ScatterPlot | AreaPlot
                    | BoxPlot | DensityPlot | CumulativePlot

  /** One frame of the chart section: its title, the routine that fills it,
    * its column and, for a scatter plot, the second column. */
  datatype Slot = Slot(title: string, kind: PlotKind, column: string, partner: Option<string>)

  const ChartNames: seq<string> := ["Line Chart", "Bar Chart", "Histogram", "Pie Chart", "Scatter Plot", "Area Chart",
                                    "Box Plot", "Density Distribution", "Cumulative Distribution", "Line Chart (Variation)"]

  const ChartKinds: seq<PlotKind> := [LinePlot, BarPlot, HistogramPlot, PiePlot, ScatterPlot, AreaPlot,
                                      BoxPlot, DensityPlot, CumulativePlot, LinePlot]

  /** The start of every frame title, as the desktop client spells it: the
    * UTF-8 bytes of the chart emoji U+1F4CA read back as Windows-1252
    * characters, followed by a space. */
  const TitlePrefix: string := "\U{F0}\U{178}\U{201C}\U{160} "

  /** The frame of configuration i over the numeric columns. */
  function SlotAt(i: nat, cols: seq<string>): Slot
    requires i < 10 && |cols| > 0
  {
    var col := cols[i % |cols|];
    var title := TitlePrefix + col + " - " + ChartNames[i];
    if ChartKinds[i] == ScatterPlot then
      if i + 1 < |cols| then Slot(title, ScatterPlot, col, Some(cols[(i + 1) % |cols|]))
      else Slot(title, LinePlot, col, None)
    else Slot(title, ChartKinds[i], col, None)
  }

  /** The scatter slot pairs its column with the next one only when there
    * is a next one, and otherwise falls back to a line chart; every other
    * slot draws its configured kind on column i mod n. */
  lemma SlotFacts(i: nat, cols: seq<string>)
    requires i < 10 && |cols| > 0
    ensures SlotAt(i, cols).column == cols[i % |cols|]
    ensures SlotAt(i, cols).title == TitlePrefix + cols[i % |cols|] + " - " + ChartNames[i]
    ensures i != 4 ==> SlotAt(i, cols).kind == ChartKinds[i] && SlotAt(i, cols).partner.None?
    ensures i == 4 && i + 1 < |cols| ==> SlotAt(i, cols).kind == ScatterPlot && SlotAt(i, cols).partner == Some(cols[5])
    ensures i == 4 && i + 1 >= |cols| ==> SlotAt(i, cols).kind == LinePlot && SlotAt(i, cols).partner.None?
  {
  }

  /** `add_charts_section`: nothing without numeric columns; otherwise the
    * configurations in order until min(10, n + 2) frames are laid out. */
  method AddChartsSection(cols: seq<string>) returns (slots: seq<Slot>)
    ensures |cols| == 0 ==> slots == []
    ensures |cols| > 0 ==> (|slots| == Min(10, |cols| + 2) &&
                            forall i :: 0 <= i < |slots| ==> slots[i] == SlotAt(i, cols))
  {
    slots := [];
    if |cols| == 0 {
      return;
    }
    var i := 0;
    while i < 10
      invariant i <= 10 && i <= |cols| + 2
      invariant |slots| == i && forall k :: 0 <= k < i ==> slots[k] == SlotAt(k, cols)
    {
      if i >= |cols| + 2 {
        break;
      }
      slots := slots + [SlotAt(i, cols)];
      i := i + 1;
    }
  }

  // ------------------------------------------------------------ column info

  /** `next((v for v in data if v is not None), None)`. */
  function FirstPresent(data: seq<Option<Json>>): (r: Option<Json>)
    ensures r.None? <==> forall i :: 0 <= i < |data| ==> data[i].None?
    ensures r.Some? ==> exists i :: 0 <= i < |data| && data[i] == r && forall k :: 0 <= k < i ==> data[k].None?
  {
    if data == [] then None
    else if data[0].Some? then data[0]
    else
      assert forall i :: 1 <= i < |data| ==> data[i] == data[1..][i - 1];
      var r := FirstPresent(data[1..]);
      if r.Some? then
        var i :| 0 <= i < |data[1..]| && data[1..][i] == r && forall k :: 0 <= k < i ==> data[1..][k].None?;
        assert data[i + 1] == r && forall k :: 0 <= k < i + 1 ==> data[k].None?;
        r
      else r
  }

  /** The type shown for a column, from its first present value. */
  function TypeName(sample: Option<Json>, toFloat: ToFloat): string
  {
    if sample.None? then "Unknown"
    else if toFloat(sample.value).Some? then "Numeric"
    else "Text"
  }

  /** `sum(1 for row in data_preview if row.get(col) is None)`. */
  function MissingCount(data: seq<Option<Json>>): nat
  {
    CountIf(data, (v: Option<Json>) => v.None?)
  }

  lemma {:induction false} MissingCountAll(data: seq<Option<Json>>)
    ensures MissingCount(data) <= |data|
    ensures MissingCount(data) == |data| <==> forall i :: 0 <= i < |data| ==> data[i].None?
  {
    if data != [] {
      MissingCountAll(data[1..]);
      assert forall i :: 1 <= i < |data| ==> data[i] == data[1..][i - 1];
    }
  }

  /** One line of the column-information panel: the name, "Type: …" and
    * "Missing: …". */
  datatype ColumnLine = ColumnLine(name: string, kind: string, missing: nat)

  function LineFor(preview: seq<Row>, col: string, toFloat: ToFloat): ColumnLine
  {
    var data := ColumnData(preview, col);
    ColumnLine(col, TypeName(FirstPresent(data), toFloat), MissingCount(data))
  }

  /** What a column's line says: its null count is bounded by the preview;
    * its type is Unknown exactly when every value is null; otherwise it is
    * Numeric or Text as the first non-null value converts or not. */
  lemma LineForFacts(preview: seq<Row>, col: string, toFloat: ToFloat)
    ensures var l := LineFor(preview, col, toFloat);
            l.name == col && l.missing <= |preview| &&
            (l.kind == "Unknown" <==> l.missing == |preview|) &&
            (l.kind == "Unknown" <==> forall i :: 0 <= i < |preview| ==> PyGet(preview[i], col).None?) &&
            (l.kind == "Numeric" <==>
               exists i :: 0 <= i < |preview| && PyGet(preview[i], col).Some? &&
                 (forall k :: 0 <= k < i ==> PyGet(preview[k], col).None?) &&
                 toFloat(PyGet(preview[i], col).value).Some?) &&
            (l.kind == "Unknown" || l.kind == "Numeric" || l.kind == "Text")
  {
    var data := ColumnData(preview, col);
    MissingCountAll(data);
    var f := FirstPresent(data);
    if f.Some? {
      var i :| 0 <= i < |data| && data[i] == f && forall k :: 0 <= k < i ==> data[k].None?;
      forall j | 0 <= j < |preview| && PyGet(preview[j], col).Some? && (forall k :: 0 <= k < j ==> PyGet(preview[k], col).None?)
        ensures j == i
      {
      }
    }
  }

  /** `add_column_info`: the placeholder when the preview or the column
    * list is empty, otherwise one line per column in order. */
  method AddColumnInfo(preview: seq<Row>, columns: seq<string>, toFloat: ToFloat) returns (lines: Option<seq<ColumnLine>>)
    ensures lines.None? <==> preview == [] || columns == []
    ensures lines.Some? ==> (|lines.value| == |columns| &&
                             forall j :: 0 <= j < |columns| ==> lines.value[j] == LineFor(preview, columns[j], toFloat))
  {
    if preview == [] || columns == [] {
      return None;
    }
    var out: seq<ColumnLine> := [];
    for j := 0 to |columns|
      invariant |out| == j && forall k :: 0 <= k < j ==> out[k] == LineFor(preview, columns[k], toFloat)
    {
      var data := ColumnData(preview, columns[j]);
      var missing := MissingCount(data);
      var sample := FirstPresent(data);
      out := out + [ColumnLine(columns[j], TypeName(sample, toFloat), missing)];
    }
    lines := Some(out);
  }
}
