/**
 * Ingestion and the owner-scoped record store of the backend views
 * (backend/accounts/views.py): `upload_file`, `upload_history`,
 * `delete_upload`, `bulk_delete_uploads` and `delete_all_data`.
 *
 * The store is a map from `upload_id` to the record, each record carrying
 * its owner, beside the set of stored blob paths. Parsing the file, the
 * generated id, the storage path chosen by the storage backend, the file
 * size and the clock are parameters.
 */
module Uploads {
  import opened Common
  import opened Frame
  import opened Stats
  import opened Models

  /** A view's reply: a success message or an error with its HTTP status. */
  datatype Reply = Ok(message: string) | Err(code: int, error: string)

  // ------------------------------------------------------------ extension

  /** Index of the last occurrence of `c` in `s`. */
  function LastIndex(s: string, c: char): (r: Option<nat>)
    ensures r.Some? ==> r.value < |s| && s[r.value] == c && forall i :: r.value < i < |s| ==> s[i] != c
    ensures r.None? ==> forall i :: 0 <= i < |s| ==> s[i] != c
  {
    if s == [] then None
    else if s[|s| - 1] == c then Some(|s| - 1)
    else LastIndex(s[..|s| - 1], c)
  }

  /** `os.path.splitext(name)[1]`: from the last dot of the last path
    * component, unless every character before that dot in the component is
    * a dot (so ".csv" and "..csv" have no extension). */
  function SplitExt(name: string): (ext: string)
  {
    var dot := LastIndex(name, '.');
    var start := match LastIndex(name, '/') case Some(k) => k + 1 case None => 0;
    if dot.Some? && dot.value >= start &&
       exists i | start <= i < dot.value :: name[i] != '.'
    then name[dot.value..]
    else ""
  }

  /** An extension is a suffix of the name that starts with its only dot;
    * a name without a dot has none. */
  lemma SplitExtFacts(name: string)
    ensures var ext := SplitExt(name);
            |ext| <= |name| && ext == name[|name| - |ext|..] &&
            (ext != [] ==> ext[0] == '.' && forall i :: 0 < i < |ext| ==> ext[i] != '.' && ext[i] != '/')
    ensures (forall i :: 0 <= i < |name| ==> name[i] != '.') ==> SplitExt(name) == []
  {
    var dot := LastIndex(name, '.');
    var slash := LastIndex(name, '/');
    var ext := SplitExt(name);
    if ext != [] {
      assert dot.Some?;
      var start := match slash case Some(k) => k + 1 case None => 0;
      assert dot.value >= start;
      forall i | 0 < i < |ext| ensures ext[i] != '.' && ext[i] != '/' {
        assert ext[i] == name[dot.value + i];
      }
    }
  }

  const AllowedExtensions: seq<string> := [".csv", ".xlsx", ".xls"]

  /** The whitelist check on the lower-cased extension. */
  predicate AllowedFile(name: string)
  {
    LowerStr(SplitExt(name)) in AllowedExtensions
  }

  /** A plain file name `stem.ext` has the extension `.ext`. */
  lemma SplitExtOfPlainName(stem: string, ext: string)
    requires stem != [] && forall i :: 0 <= i < |stem| ==> stem[i] != '.' && stem[i] != '/'
    requires ext != [] && ext[0] == '.' && forall i :: 1 <= i < |ext| ==> ext[i] != '.' && ext[i] != '/'
    ensures SplitExt(stem + ext) == ext
  {
    var name := stem + ext;
    var dot := LastIndex(name, '.');
    assert name[|stem|] == '.';
    assert dot == Some(|stem|);
    assert LastIndex(name, '/') == None;
    assert name[0] != '.';
  }

  /** A plain name `stem.ext` is accepted exactly when its lower-cased
    * extension is on the whitelist, whatever its case. */
  lemma AllowedPlainName(stem: string, ext: string)
    requires stem != [] && forall i :: 0 <= i < |stem| ==> stem[i] != '.' && stem[i] != '/'
    requires ext != [] && ext[0] == '.' && forall i :: 1 <= i < |ext| ==> ext[i] != '.' && ext[i] != '/'
    ensures AllowedFile(stem + ext) <==> LowerStr(ext) in AllowedExtensions
  {
    SplitExtOfPlainName(stem, ext);
  }

  /** A name without a dot is refused, and so is a hidden name such as
    * ".csv" whose only dot is its first character. */
  lemma ExtensionlessRefused(name: string)
    requires (forall i :: 0 <= i < |name| ==> name[i] != '.') ||
             (name != [] && name[0] == '.' && forall i :: 1 <= i < |name| ==> name[i] != '.' && name[i] != '/')
    ensures !AllowedFile(name)
  {
    if name != [] && name[0] == '.' {
      assert LastIndex(name, '.') == Some(0);
      assert LastIndex(name, '/') == None;
    }
    SplitExtFacts(name);
    assert LowerStr("") == "";
  }

  const InvalidTypeMessage: string := "Invalid file type. Allowed: .csv, .xlsx, .xls"

  // ------------------------------------------------------------ the record

  /** `df.head(100).fillna('N/A')`. */
  function Preview(t: Table): (p: seq<seq<Cell>>)
  {
    var n := Min(100, |t.rows|);
    seq(n, i requires 0 <= i < n => FillMissing(t.rows[i]))
  }

  /** `df.select_dtypes(include=['number']).describe()`, or `{}` when that
    * frame is empty. */
  function SummaryStats(t: Table, sqrt: real -> real): (r: seq<(string, Summary)>)
    requires WellFormed(t)
  {
    if NumericEmpty(t) then []
    else
      var idx := NumericColumns(t.columns);
      seq(|idx|, k requires 0 <= k < |idx| => (t.columns[idx[k]].name, ColumnSummary(t, idx[k], sqrt)))
  }

  /** `describe()` of one numeric column: its count is the column's number
    * of present cells. */
  function ColumnSummary(t: Table, j: nat, sqrt: real -> real): (r: Summary)
    requires WellFormed(t) && j < |t.columns| && IsNumeric(t.columns[j].dtype)
    ensures r.count == NonNullCount(t.rows, j)
  {
    ColumnValuesCount(t.rows, j);
    Describe(ColumnValues(t.rows, j), sqrt)
  }

  /** The summary of a numeric column: std is present exactly when two or
    * more cells are, everything but the count is absent when none is, and
    * otherwise min <= q25 <= q50 <= q75 <= max with the mean in range. */
  lemma ColumnSummaryFacts(t: Table, j: nat, sqrt: real -> real)
    requires WellFormed(t) && j < |t.columns| && IsNumeric(t.columns[j].dtype)
    ensures var d := ColumnSummary(t, j, sqrt);
            (d.std.Some? <==> NonNullCount(t.rows, j) >= 2) &&
            (NonNullCount(t.rows, j) == 0 ==>
               d.mean.None? && d.std.None? && d.min.None? && d.q25.None? && d.q50.None? && d.q75.None? && d.max.None?) &&
            (NonNullCount(t.rows, j) > 0 ==>
               d.min.Some? && d.max.Some? && d.mean.Some? && d.q25.Some? && d.q50.Some? && d.q75.Some? &&
               d.min.value <= d.q25.value <= d.q50.value <= d.q75.value <= d.max.value &&
               d.min.value <= d.mean.value <= d.max.value)
  {
    var xs := ColumnValues(t.rows, j);
    ColumnValuesCount(t.rows, j);
    var d := Describe(xs, sqrt);
    assert ColumnSummary(t, j, sqrt) == d;
    DescribeFacts(xs, sqrt);
    if |xs| == 0 {
      assert StatValues(d)[1..] == [d.mean, d.std, d.min, d.q25, d.q50, d.q75, d.max];
    }
  }

  /** The record `upload_file` creates from a parsed table. */
  function BuildRecord(owner: string, uploadId: string, fileName: string, path: string,
                       fileSize: nat, t: Table, now: int, sqrt: real -> real): (u: Upload)
    requires WellFormed(t)
  {
    var cols := t.columns;
    Upload(owner, uploadId, fileName, path, |t.rows|, |cols|, fileSize,
           Names(cols),
           seq(|cols|, j requires 0 <= j < |cols| => (cols[j].name, DTypeName(cols[j].dtype))),
           seq(|cols|, j requires 0 <= j < |cols| => (cols[j].name, NullCount(t.rows, j))),
           SummaryStats(t, sqrt), Preview(t), Completed, now)
  }

  /** The created record has the table's dimensions and column order,
    * status Completed, the given id, owner and path, and its fields agree
    * with each other. */
  lemma RecordShape(owner: string, uploadId: string, fileName: string, path: string,
                    fileSize: nat, t: Table, now: int, sqrt: real -> real)
    requires WellFormed(t)
    ensures var u := BuildRecord(owner, uploadId, fileName, path, fileSize, t, now, sqrt);
            u.rows == |t.rows| && u.columns == |t.columns| && u.columnNames == Names(t.columns) &&
            u.status == Completed && u.uploadId == uploadId && u.owner == owner && u.filePath == path &&
            Consistent(u)
  {
    var u := BuildRecord(owner, uploadId, fileName, path, fileSize, t, now, sqrt);
    var idx := NumericColumns(t.columns);
    forall k | 0 <= k < |u.summaryStats| ensures u.summaryStats[k].0 in u.columnNames {
      assert u.columnNames[idx[k]] == t.columns[idx[k]].name;
    }
  }

  /** One dtype name and one null count per column, the count taken over
    * the full table: it and the present cells add up to the row count, and
    * it is positive exactly when the column has a gap in some row, even a
    * row past the preview. */
  lemma RecordMissing(owner: string, uploadId: string, fileName: string, path: string,
                      fileSize: nat, t: Table, now: int, sqrt: real -> real)
    requires WellFormed(t)
    ensures var u := BuildRecord(owner, uploadId, fileName, path, fileSize, t, now, sqrt);
            forall j :: 0 <= j < |t.columns| ==>
              u.dataTypes[j] == (t.columns[j].name, DTypeName(t.columns[j].dtype)) &&
              u.missingValues[j].0 == t.columns[j].name &&
              u.missingValues[j].1 + NonNullCount(t.rows, j) == |t.rows| &&
              (u.missingValues[j].1 > 0 <==> exists i :: 0 <= i < |t.rows| && t.rows[i][j].None?)
  {
    var u := BuildRecord(owner, uploadId, fileName, path, fileSize, t, now, sqrt);
    forall j | 0 <= j < |t.columns|
      ensures u.missingValues[j].1 + NonNullCount(t.rows, j) == |t.rows|
      ensures u.missingValues[j].1 > 0 <==> exists i :: 0 <= i < |t.rows| && t.rows[i][j].None?
    {
      CountsAddUp(t.rows, j);
      NullCountPositive(t.rows, j);
    }
  }

  /** The preview is the first min(100, rows) rows in source order, each
    * missing cell replaced by "N/A" and every other cell kept. */
  lemma RecordPreview(t: Table)
    requires WellFormed(t)
    ensures |Preview(t)| == Min(100, |t.rows|)
    ensures forall i, j :: 0 <= i < |Preview(t)| && 0 <= j < |t.columns| ==>
              Preview(t)[i][j] == (if t.rows[i][j].Some? then t.rows[i][j].value else Text("N/A"))
  {
  }

  /** Statistics are omitted exactly when there is no numeric column or no row. */
  lemma SummaryEmpty(t: Table, sqrt: real -> real)
    requires WellFormed(t)
    ensures NumericEmpty(t) <==> SummaryStats(t, sqrt) == []
  {
  }

  /** Every statistics entry belongs to a numeric column and counts that
    * column's present cells. */
  lemma SummaryNumericOnly(t: Table, sqrt: real -> real)
    requires WellFormed(t)
    ensures forall k :: 0 <= k < |SummaryStats(t, sqrt)| ==>
              exists j :: 0 <= j < |t.columns| && IsNumeric(t.columns[j].dtype) &&
                          SummaryStats(t, sqrt)[k].0 == t.columns[j].name &&
                          SummaryStats(t, sqrt)[k].1.count == NonNullCount(t.rows, j)
  {
    var s := SummaryStats(t, sqrt);
    var idx := NumericColumns(t.columns);
    if !NumericEmpty(t) {
      forall k | 0 <= k < |s|
        ensures exists j :: 0 <= j < |t.columns| && IsNumeric(t.columns[j].dtype) &&
                            s[k].0 == t.columns[j].name && s[k].1.count == NonNullCount(t.rows, j)
      {
        var j := idx[k];
        assert s[k] == (t.columns[j].name, ColumnSummary(t, j, sqrt));
        assert 0 <= j < |t.columns| && IsNumeric(t.columns[j].dtype);
        assert s[k].1.count == NonNullCount(t.rows, j);
      }
    } else {
      assert s == [];
    }
  }

  /** When the numeric frame is not empty, every numeric column has an entry. */
  lemma SummaryCoversNumeric(t: Table, sqrt: real -> real)
    requires WellFormed(t) && !NumericEmpty(t)
    ensures forall j :: 0 <= j < |t.columns| && IsNumeric(t.columns[j].dtype) ==>
              exists k :: 0 <= k < |SummaryStats(t, sqrt)| && SummaryStats(t, sqrt)[k].0 == t.columns[j].name
  {
    var s := SummaryStats(t, sqrt);
    var idx := NumericColumns(t.columns);
    forall j | 0 <= j < |t.columns| && IsNumeric(t.columns[j].dtype)
      ensures exists k :: 0 <= k < |s| && s[k].0 == t.columns[j].name
    {
      var k :| 0 <= k < |idx| && idx[k] == j;
      assert s[k].0 == t.columns[j].name;
    }
  }

  // ------------------------------------------------------------ history

  /** One item of the `upload_history` reply. */
  datatype HistoryEntry = HistoryEntry(uploadId: string, filename: string, uploadDate: int,
                                       rows: int, fileSize: int, status: string)

  function Entry(u: Upload): HistoryEntry
  {
    HistoryEntry(u.uploadId, u.filename, u.uploadDate, u.rows, u.fileSize, StatusName(u.status))
  }

  /** `order_by('-upload_date')`. */
  function NewerFirst(a: HistoryEntry, b: HistoryEntry): bool { a.uploadDate >= b.uploadDate }

  lemma NewerFirstTotal()
    ensures TotalPreorder(NewerFirst)
  {
  }

  function Owned(records: map<string, Upload>, user: string): (r: set<string>)
    ensures forall k :: k in r <==> k in records && records[k].owner == user
  {
    set k | k in records.Keys && records[k].owner == user
  }

  /** Blob paths of the records under `keys`. */
  function PathsOf(records: map<string, Upload>, keys: set<string>): set<string>
  {
    set k | k in keys && k in records :: records[k].filePath
  }

  /** Where a delete loop stopped on an exception: the ids whose blob and
    * record were both deleted before it, the id whose blob went but whose
    * record delete raised (if the exception came there), and the text of
    * the exception. */
  datatype Interruption = Interruption(finished: set<string>, blobOnly: Option<string>, message: string)

  /** The ids whose blob an interrupted loop had deleted. */
  function BlobsTouched(stop: Interruption): (r: set<string>)
    ensures stop.finished <= r
    ensures forall k :: k in r ==> k in stop.finished || stop.blobOnly == Some(k)
  {
    stop.finished + (if stop.blobOnly.Some? then {stop.blobOnly.value} else {})
  }

  /** The paths of fewer records are fewer paths. */
  lemma {:induction false} PathsOfMonotone(records: map<string, Upload>, a: set<string>, b: set<string>)
    requires a <= b
    ensures PathsOf(records, a) <= PathsOf(records, b)
  {
    forall p | p in PathsOf(records, a)
      ensures p in PathsOf(records, b)
    {
      var k :| k in a && k in records && records[k].filePath == p;
      assert k in b;
    }
  }

  class UploadStore {
    var records: map<string, Upload>
    var blobs: set<string>

    /** `upload_id` is the record's key, so it is unique. */
    predicate Valid()
      reads this
    {
      forall k :: k in records ==> records[k].uploadId == k
    }

    constructor ()
      ensures records == map[] && blobs == {} && Valid()
    {
      records := map[];
      blobs := {};
    }

    /** `upload_file`. `fileName` is None when the request has no `file`
      * part; `parse(path, isCsv)` is the CSV or Excel reader, None when it
      * raises; `failure` is the text of whatever exception ends the
      * processing. */
    method UploadFile(user: string, fileName: Option<string>, uploadId: string, storedPath: string,
                      fileSize: nat, parse: (string, bool) -> Option<Table>, failure: string,
                      now: int, sqrt: real -> real) returns (reply: Reply, record: Option<Upload>)
      requires Valid()
      requires forall p, c :: parse(p, c).Some? ==> WellFormed(parse(p, c).value)
      modifies this
      ensures Valid()
      ensures fileName.None? ==> reply == Err(400, "No file provided")
      ensures fileName.Some? && !AllowedFile(fileName.value) ==> reply == Err(400, InvalidTypeMessage)
      ensures fileName.None? || !AllowedFile(fileName.value) ==>
                records == old(records) && blobs == old(blobs) && record.None?
      ensures fileName.Some? && AllowedFile(fileName.value) ==> blobs == old(blobs) + {storedPath}
      ensures fileName.Some? && AllowedFile(fileName.value) ==>
        var t := parse(storedPath, LowerStr(SplitExt(fileName.value)) == ".csv");
        if t.None? || uploadId in old(records) then
          reply == Err(500, "File processing failed: " + failure) && record.None? && records == old(records)
        else
          record == Some(BuildRecord(user, uploadId, fileName.value, storedPath, fileSize, t.value, now, sqrt)) &&
          reply == Ok("File uploaded and analyzed successfully") &&
          records == old(records)[uploadId := record.value]
    {
      record := None;
      if fileName.None? {
        reply := Err(400, "No file provided");
        return;
      }
      var name := fileName.value;
      var ext := LowerStr(SplitExt(name));
      if ext !in AllowedExtensions {
        reply := Err(400, InvalidTypeMessage);
        return;
      }
      blobs := blobs + {storedPath};
      var t := parse(storedPath, ext == ".csv");
      if t.None? || uploadId in records {
        reply := Err(500, "File processing failed: " + failure);
        return;
      }
      var u := BuildRecord(user, uploadId, name, storedPath, fileSize, t.value, now, sqrt);
      records := records[uploadId := u];
      record := Some(u);
      reply := Ok("File uploaded and analyzed successfully");
    }

    /** `upload_history`: the caller's records, newest first. */
    method UploadHistory(user: string) returns (items: seq<HistoryEntry>)
      ensures |items| == |Owned(records, user)|
      ensures forall i :: 0 <= i < |items| ==>
                exists k :: k in Owned(records, user) && items[i] == Entry(records[k])
      ensures forall k :: k in Owned(records, user) ==> Entry(records[k]) in items
      ensures SortedBy(items, NewerFirst)
    {
      var picked := Collect(Owned(records, user));
      NewerFirstTotal();
      SortByCorrect(picked, NewerFirst);
      items := SortBy(picked, NewerFirst);
      forall i | 0 <= i < |items|
        ensures exists k :: k in Owned(records, user) && items[i] == Entry(records[k])
      {
        assert items[i] in multiset(picked);
      }
      forall k | k in Owned(records, user) ensures Entry(records[k]) in items {
        assert Entry(records[k]) in multiset(items);
      }
    }

    /** The entries of the given records, one per key, in no particular order. */
    method Collect(keys: set<string>) returns (picked: seq<HistoryEntry>)
      requires keys <= records.Keys
      ensures |picked| == |keys|
      ensures forall i :: 0 <= i < |picked| ==> exists k :: k in keys && picked[i] == Entry(records[k])
      ensures forall k :: k in keys ==> Entry(records[k]) in picked
    {
      var left := keys;
      picked := [];
      while left != {}
        invariant left <= keys
        invariant |picked| + |left| == |keys|
        invariant forall i :: 0 <= i < |picked| ==> exists k :: k in keys && picked[i] == Entry(records[k])
        invariant forall k :: k in keys && k !in left ==> Entry(records[k]) in picked
        decreases left
      {
        var k :| k in left;
        picked := picked + [Entry(records[k])];
        left := left - {k};
      }
    }

    /** Delete each listed record: its blob first when it exists, then the
      * record itself. */
    method RemoveRecords(keys: set<string>)
      requires Valid()
      modifies this
      ensures Valid()
      ensures records == old(records) - keys
      ensures blobs == old(blobs) - PathsOf(old(records), keys)
    {
      var left := keys;
      while left != {}
        invariant left <= keys
        invariant records == old(records) - (keys - left)
        invariant blobs == old(blobs) - PathsOf(old(records), keys - left)
        invariant Valid()
        decreases left
      {
        var k :| k in left;
        assert PathsOf(old(records), keys - (left - {k})) ==
               PathsOf(old(records), keys - left) + (if k in old(records) then {old(records)[k].filePath} else {});
        if k in records {
          var path := records[k].filePath;
          if path in blobs {
            blobs := blobs - {path};
          }
          records := records - {k};
        }
        left := left - {k};
      }
    }

    /** `delete_upload`: only a record with this id owned by the caller is
      * found; its blob goes first, then the record. `dbError` is the
      * failure of the final record delete, which leaves the blob gone and
      * the record in place. */
    method DeleteUpload(user: string, uploadId: string, dbError: Option<string>) returns (reply: Reply)
      requires Valid()
      modifies this
      ensures Valid()
      ensures !(uploadId in old(records) && old(records)[uploadId].owner == user) ==>
                reply == Err(404, "Upload not found") && records == old(records) && blobs == old(blobs)
      ensures uploadId in old(records) && old(records)[uploadId].owner == user ==>
                var u := old(records)[uploadId];
                blobs == old(blobs) - {u.filePath} &&
                if dbError.Some? then reply == Err(500, dbError.value) && records == old(records)
                else reply == Ok("Upload \"" + u.filename + "\" deleted successfully") &&
                     records == old(records) - {uploadId}
    {
      if !(uploadId in records && records[uploadId].owner == user) {
        return Err(404, "Upload not found");
      }
      var u := records[uploadId];
      if u.filePath in blobs {
        blobs := blobs - {u.filePath};
      }
      if dbError.Some? {
        return Err(500, dbError.value);
      }
      records := records - {uploadId};
      reply := Ok("Upload \"" + u.filename + "\" deleted successfully");
    }

    /** `bulk_delete_uploads`: an empty id list is refused; otherwise
      * exactly the caller's records among the ids go. `stop` is the
      * exception that ends the loop, if one does: the reply is then a 500
      * with its text, and only the deletions done before it stay done. */
    method BulkDelete(user: string, ids: seq<string>, stop: Option<Interruption>) returns (reply: Reply)
      requires Valid()
      modifies this
      ensures Valid()
      ensures ids == [] ==> reply == Err(400, "No upload IDs provided") &&
                            records == old(records) && blobs == old(blobs)
      ensures ids != [] && stop.None? ==>
                var gone := set k | k in Owned(old(records), user) && k in ids;
                records == old(records) - gone &&
                blobs == old(blobs) - PathsOf(old(records), gone) &&
                reply == Ok("Deleted " + NatToString(|gone|) + " uploads")
      ensures ids != [] && stop.Some? ==>
                var gone := set k | k in Owned(old(records), user) && k in ids;
                reply == Err(500, stop.value.message) &&
                records == old(records) - (gone * stop.value.finished) &&
                blobs == old(blobs) - PathsOf(old(records), gone * BlobsTouched(stop.value))
      ensures forall k :: k in old(records) && old(records)[k].owner != user ==>
                k in records && records[k] == old(records)[k]
    {
      if ids == [] {
        return Err(400, "No upload IDs provided");
      }
      var gone := set k | k in records.Keys && records[k].owner == user && k in ids;
      assert gone == set k | k in Owned(records, user) && k in ids;
      if stop.Some? {
        reply := Interrupted(gone, stop.value);
      } else {
        RemoveRecords(gone);
        reply := Ok("Deleted " + NatToString(|gone|) + " uploads");
      }
    }

    /** `delete_all_data`: the count is taken before anything is deleted,
      * and afterwards the caller owns no record. `stop` is as for
      * `BulkDelete`. */
    method DeleteAll(user: string, stop: Option<Interruption>) returns (reply: Reply)
      requires Valid()
      modifies this
      ensures Valid()
      ensures stop.None? ==>
                Owned(records, user) == {} &&
                records == old(records) - Owned(old(records), user) &&
                blobs == old(blobs) - PathsOf(old(records), Owned(old(records), user)) &&
                reply == Ok("Deleted " + NatToString(|Owned(old(records), user)|) +
                            " uploads and all associated data")
      ensures stop.Some? ==>
                var mine := Owned(old(records), user);
                reply == Err(500, stop.value.message) &&
                records == old(records) - (mine * stop.value.finished) &&
                blobs == old(blobs) - PathsOf(old(records), mine * BlobsTouched(stop.value))
      ensures forall k :: k in old(records) && old(records)[k].owner != user ==>
                k in records && records[k] == old(records)[k]
    {
      var mine := Owned(records, user);
      var count := |mine|;
      if stop.Some? {
        reply := Interrupted(mine, stop.value);
      } else {
        RemoveRecords(mine);
        reply := Ok("Deleted " + NatToString(count) + " uploads and all associated data");
      }
    }

    /** The loop over `keys` cut short by `stop`: the finished records and
      * their blobs go, and so does the blob of the record whose delete
      * raised. */
    method Interrupted(keys: set<string>, stop: Interruption) returns (reply: Reply)
      requires Valid()
      modifies this
      ensures Valid()
      ensures reply == Err(500, stop.message)
      ensures records == old(records) - (keys * stop.finished)
      ensures blobs == old(blobs) - PathsOf(old(records), keys * BlobsTouched(stop))
    {
      var before := records;
      var touched := keys * BlobsTouched(stop);
      RemoveRecords(keys * stop.finished);
      PathsOfMonotone(before, keys * stop.finished, touched);
      blobs := blobs - PathsOf(before, touched);
      reply := Err(500, stop.message);
    }
  }
}
