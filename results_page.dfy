/**
 * The web results page (web/src/pages/Results.tsx): the values it derives
 * from the fetched upload detail, namely the numeric columns, the chart
 * series, the preview window, which charts appear, and the column
 * information. `parseFloat` is a parameter (None for NaN); JavaScript
 * number formatting is not modelled.
 */
module ResultsPage {
  import opened Common
  import opened Json

  /** `obj?.[key]` on a JSON value: undefined (None) unless it is an object
    * with that key. */
  function Field(v: Option<Json>, key: string): (r: Option<Json>)
    ensures r.Some? ==> v.Some? && v.value.JObj?
  {
    if v.Some? && v.value.JObj? then Get(v.value.members, key) else None
  }

  /** `x || fallback`. */
  function OrElse(x: Option<Json>, fallback: Json): (r: Json)
    ensures x.Some? && JsTruthy(x.value) ==> r == x.value
    ensures x.None? || !JsTruthy(x.value) ==> r == fallback
  {
    if x.Some? && JsTruthy(x.value) then x.value else fallback
  }

  /** `Object.keys(summaryStats)` for an object, else no columns (arrays
    * and other values included). */
  function NumericColumns(uploadData: Option<Json>): (cols: seq<string>)
  {
    var stats := OrElse(Field(uploadData, "summary_stats"), JObj([]));
    if stats.JObj? then Keys(stats.members) else []
  }

  /** The numeric columns are exactly the keys of `summary_stats` when it
    * is an object with at least one key, and none otherwise. */
  lemma NumericColumnsFacts(uploadData: Option<Json>)
    ensures var s := Field(uploadData, "summary_stats");
            (s.Some? && s.value.JObj? ==> NumericColumns(uploadData) == Keys(s.value.members)) &&
            (s.None? || !s.value.JObj? ==> NumericColumns(uploadData) == []) &&
            forall k :: k in NumericColumns(uploadData) ==> s.Some? && s.value.JObj? && HasKey(s.value.members, k)
  {
    var s := Field(uploadData, "summary_stats");
    if s.Some? && s.value.JObj? {
      forall k | k in Keys(s.value.members) ensures HasKey(s.value.members, k) {
        var i :| 0 <= i < |Keys(s.value.members)| && Keys(s.value.members)[i] == k;
      }
    }
  }

  /** One point of a chart series. */
  datatype Point = Point(name: string, value: real)

  /** `parseFloat(row[col]) || 0`. */
  function PointValue(row: Json, col: string, parseFloat: Json -> Option<real>): real
  {
    var cell := if row.JObj? then Get(row.members, col) else None;
    if cell.Some? && parseFloat(cell.value).Some? then parseFloat(cell.value).value else 0.0
  }

  /** `getNumericColumnData`: the first 20 preview rows, named "1", "2", …
    * in order. */
  function ColumnSeries(preview: seq<Json>, col: string, parseFloat: Json -> Option<real>): (r: seq<Point>)
  {
    var head := Take(preview, 20);
    seq(|head|, i requires 0 <= i < |head| => Point(NatToString(i + 1), PointValue(head[i], col, parseFloat)))
  }

  /** A series has one point per previewed row up to 20; point i is named
    * by its 1-based position and carries row i's parsed value, or 0 when
    * the cell is missing or not a number. */
  lemma ColumnSeriesFacts(preview: seq<Json>, col: string, parseFloat: Json -> Option<real>)
    ensures var r := ColumnSeries(preview, col, parseFloat);
            |r| == Min(20, |preview|) &&
            forall i :: 0 <= i < |r| ==>
              r[i].name == NatToString(i + 1) &&
              r[i].value == PointValue(preview[i], col, parseFloat) &&
              (!preview[i].JObj? || !HasKey(preview[i].members, col) ==> r[i].value == 0.0)
  {
    TakeFacts(preview, 20);
  }

  // ------------------------------------------------------------ preview table

  const PreviewRows: nat := 20

  /** `dataPreview.slice(0, showAllRows ? dataPreview.length : 20)`. */
  function PreviewShown(preview: seq<Json>, showAll: bool): (r: seq<Json>)
    ensures r <= preview
  {
    Take(preview, if showAll then |preview| else PreviewRows)
  }

  /** The toggle under the table, present only when there are more than 20
    * rows. */
  function PreviewToggle(preview: seq<Json>, showAll: bool): Option<string>
  {
    if |preview| > PreviewRows then
      Some(if showAll then "Show Less" else "Load More (" + NatToString(|preview| - PreviewRows) + " more rows)")
    else None
  }

  /** Collapsed, the table shows the first 20 rows and the toggle counts
    * exactly the rows left out; expanded it shows every row; with 20 or
    * fewer rows both views are the whole preview and no toggle appears. */
  lemma PreviewFacts(preview: seq<Json>)
    ensures PreviewShown(preview, true) == preview
    ensures |PreviewShown(preview, false)| == Min(PreviewRows, |preview|)
    ensures PreviewToggle(preview, false).Some? ==>
              |preview| - |PreviewShown(preview, false)| > 0 &&
              PreviewToggle(preview, false).value ==
                "Load More (" + NatToString(|preview| - |PreviewShown(preview, false)|) + " more rows)"
    ensures |preview| <= PreviewRows ==>
              PreviewShown(preview, false) == preview && PreviewToggle(preview, false).None? &&
              PreviewToggle(preview, true).None?
  {
  }

  // ------------------------------------------------------------ charts

  datatype WebChart =
    | LineSeries(column: string)
    | Bars(column: string)
    | Pie(column: string)
    | Histogram(column: string)
    | Scatter(column: string)
    | Combined(column: string, legend: string)

  /** The charts the page renders for its numeric columns, in page order. */
  function PageCharts(cols: seq<string>): (r: seq<WebChart>)
  {
    var lines := seq(Min(3, |cols|), i requires 0 <= i < Min(3, |cols|) => LineSeries(cols[i]));
    if cols == [] then []
    else
      lines + [Bars(cols[0])] +
      (if |cols| > 1 then [Pie(cols[1])] else []) +
      (if |cols| > 2 then [Histogram(cols[2])] else []) +
      [Scatter(cols[0])] +
      (if |cols| > 1 then [Combined(cols[0], if cols[1] == [] then "Value" else cols[1])] else [])
  }

  /** No numeric column, no chart; otherwise up to three line charts and
    * the bar and scatter charts, a pie and a combined chart from two
    * columns, a histogram from three; every chart draws a numeric column. */
  lemma PageChartsFacts(cols: seq<string>)
    ensures |PageCharts(cols)| ==
              if cols == [] then 0
              else Min(3, |cols|) + 2 + (if |cols| > 1 then 2 else 0) + (if |cols| > 2 then 1 else 0)
    ensures forall c :: c in PageCharts(cols) ==> c.column in cols
    ensures (exists c :: c in PageCharts(cols) && c.Pie?) <==> |cols| > 1
    ensures (exists c :: c in PageCharts(cols) && c.Histogram?) <==> |cols| > 2
  {
    var r := PageCharts(cols);
    if |cols| > 1 {
      assert Pie(cols[1]) in r;
    }
    if |cols| > 2 {
      assert Histogram(cols[2]) in r;
    }
  }

  /** The combined chart appears exactly when there are two numeric
    * columns, and its line is labelled by the second one, or "Value" when
    * that name is empty. */
  lemma {:induction false} CombinedLegendFacts(cols: seq<string>)
    ensures (exists c :: c in PageCharts(cols) && c.Combined?) <==> |cols| > 1
    ensures forall c :: c in PageCharts(cols) && c.Combined? ==>
              c.column == cols[0] && c.legend != [] && (c.legend == cols[1] || (cols[1] == [] && c.legend == "Value"))
  {
    if cols != [] {
      var lines := seq(Min(3, |cols|), i requires 0 <= i < Min(3, |cols|) => LineSeries(cols[i]));
      var front := lines + [Bars(cols[0])] +
        (if |cols| > 1 then [Pie(cols[1])] else []) +
        (if |cols| > 2 then [Histogram(cols[2])] else []) +
        [Scatter(cols[0])];
      var last: seq<WebChart> := if |cols| > 1 then [Combined(cols[0], if cols[1] == [] then "Value" else cols[1])] else [];
      assert PageCharts(cols) == front + last;
      assert forall c :: c in front ==> !c.Combined?;
      if |cols| > 1 {
        assert last[0] in PageCharts(cols);
      }
    }
  }

  // ------------------------------------------------------------ column info

  /** The type shown for a column: `data_types[col] || 'Unknown'`. */
  function TypeLabel(uploadData: Option<Json>, col: string, num: real -> string): (r: string)
  {
    var t := Field(uploadData, "data_types");
    var v := if t.Some? && t.value.JObj? then Get(t.value.members, col) else None;
    JsStr(OrElse(v, JStr("Unknown")), num)
  }

  /** The count shown for a column: `missing_values[col] || 0`. */
  function MissingLabel(uploadData: Option<Json>, col: string): (r: Json)
  {
    var m := Field(uploadData, "missing_values");
    var v := if m.Some? && m.value.JObj? then Get(m.value.members, col) else None;
    OrElse(v, JInt(0))
  }

  /** A column with a non-empty stored type shows it, a column without one
    * shows "Unknown"; a missing or zero count shows 0. */
  lemma ColumnInfoFacts(uploadData: Option<Json>, col: string, num: real -> string, name: string)
    ensures Field(Field(uploadData, "data_types"), col) == Some(JStr(name)) && name != [] ==>
              TypeLabel(uploadData, col, num) == name
    ensures Field(Field(uploadData, "data_types"), col).None? ==> TypeLabel(uploadData, col, num) == "Unknown"
    ensures Field(Field(uploadData, "missing_values"), col).None? ==> MissingLabel(uploadData, col) == JInt(0)
    ensures MissingLabel(uploadData, col) == JInt(0) || JsTruthy(MissingLabel(uploadData, col))
  {
  }

  // ------------------------------------------------------------ page state

  datatype DetailAnswer = DetailError(error: string) | DetailData(data: Json)

  class ResultsPage {
    var loading: bool
    var uploadData: Option<Json>
    var dataPreview: seq<Json>
    var showAllRows: bool
    /** Set when the page sends the user back to the dashboard. */
    var redirected: bool

    constructor ()
      ensures loading && uploadData.None? && dataPreview == [] && !showAllRows && !redirected
    {
      loading := true;
      uploadData := None;
      dataPreview := [];
      showAllRows := false;
      redirected := false;
    }

    /** `fetchUploadDetails`: an error sends the user to the dashboard with
      * nothing loaded; truthy data replaces the detail and the preview
      * (`data_preview || []`, read as rows when it is an array); falsy data
      * changes nothing but the loading flag. */
    method FetchUploadDetails(answer: DetailAnswer)
      modifies this
      ensures !loading && showAllRows == old(showAllRows)
      ensures answer.DetailError? ==>
                redirected && uploadData == old(uploadData) && dataPreview == old(dataPreview)
      ensures answer.DetailData? ==> redirected == old(redirected)
      ensures answer.DetailData? && !JsTruthy(answer.data) ==>
                uploadData == old(uploadData) && dataPreview == old(dataPreview)
      ensures answer.DetailData? && JsTruthy(answer.data) ==>
                uploadData == Some(answer.data) &&
                dataPreview == (var p := Field(Some(answer.data), "data_preview");
                                if p.Some? && p.value.JArr? then p.value.items else [])
    {
      if answer.DetailError? {
        redirected := true;
      } else if JsTruthy(answer.data) {
        uploadData := Some(answer.data);
        var p := Field(uploadData, "data_preview");
        dataPreview := if p.Some? && p.value.JArr? then p.value.items else [];
      }
      loading := false;
    }

    /** The preview toggle's click. */
    method ToggleRows()
      modifies this
      ensures showAllRows == !old(showAllRows)
      ensures uploadData == old(uploadData) && dataPreview == old(dataPreview) && loading == old(loading)
      ensures redirected == old(redirected)
    {
      showAllRows := !showAllRows;
    }
  }
}
