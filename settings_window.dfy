/**
 * The desktop settings window (desktop-app/ui/settings_window.py): the
 * change-password dialog's guards, the account totals, and the two
 * workers that delete every upload and export every upload to CSV. The
 * API's answers are parameters; the workers' threads are not modelled.
 */
module SettingsWindow {
  import opened Common
  import opened ClientUploads
  import Accounts

  // ------------------------------------------------------------ password dialog

  /** The first failing guard of `save_password`, or None when the request
    * may be sent. */
  function PasswordFormError(current: string, next: string, confirm: string): Option<string>
  {
    if current == [] then Some("Please enter your current password")
    else if next == [] || confirm == [] then Some("Please fill in all password fields")
    else if next != confirm then Some("New passwords do not match!")
    else if |next| < 8 then Some("Password must be at least 8 characters")
    else None
  }

  /** The guards in their order; the request goes out exactly when the
    * current password is given and the new one is confirmed and at least 8
    * characters long. */
  lemma PasswordFormGuards(current: string, next: string, confirm: string)
    ensures PasswordFormError(current, next, confirm).None? <==>
              current != [] && next != [] && next == confirm && |next| >= 8
    ensures current == [] ==> PasswordFormError(current, next, confirm) == Some("Please enter your current password")
    ensures current != [] && (next == [] || confirm == []) ==>
              PasswordFormError(current, next, confirm) == Some("Please fill in all password fields")
    ensures current != [] && next != [] && confirm != [] && next != confirm ==>
              PasswordFormError(current, next, confirm) == Some("New passwords do not match!")
    ensures current != [] && next != [] && next == confirm && |next| < 8 ==>
              PasswordFormError(current, next, confirm) == Some("Password must be at least 8 characters")
  {
  }

  /** A request the dialog lets through also passes the backend's own
    * presence and length guards, so only a wrong current password can make
    * the server refuse it. */
  lemma DialogAgreesWithServer(current: string, next: string, confirm: string, checkPassword: string -> bool)
    requires PasswordFormError(current, next, confirm).None?
    ensures Accounts.ChangePassword(Some(current), Some(next), checkPassword) ==
              if checkPassword(current) then Accounts.SetPassword(next)
              else Accounts.Refused("Current password is incorrect")
  {
    Accounts.ChangePasswordGuards(Some(current), Some(next), checkPassword);
  }

  class ChangePasswordDialog {
    /** Whether the dialog was accepted (closed with success). */
    var accepted: bool
    /** The `change_password` calls issued, as (current, new). */
    var requests: seq<(string, string)>
    /** The message of the last dialog shown. */
    var shown: string

    constructor ()
      ensures !accepted && requests == [] && shown == []
    {
      accepted := false;
      requests := [];
      shown := [];
    }

    /** `save_password`: a failed guard shows its message and sends
      * nothing; otherwise one request is sent, and the dialog is accepted
      * only when the answer is not an error. */
    method SavePassword(current: string, next: string, confirm: string, apiError: Option<string>)
      modifies this
      ensures PasswordFormError(current, next, confirm).Some? ==>
                requests == old(requests) && accepted == old(accepted) &&
                shown == PasswordFormError(current, next, confirm).value
      ensures PasswordFormError(current, next, confirm).None? ==>
                requests == old(requests) + [(current, next)] &&
                accepted == (old(accepted) || apiError.None?) &&
                shown == (if apiError.Some? then apiError.value else "Your password has been changed successfully!")
    {
      var error := PasswordFormError(current, next, confirm);
      if error.Some? {
        shown := error.value;
        return;
      }
      requests := requests + [(current, next)];
      if apiError.Some? {
        shown := apiError.value;
      } else {
        shown := "Your password has been changed successfully!";
        accepted := true;
      }
    }
  }

  // ------------------------------------------------------------ totals

  /** `sum(upload.get("file_size", 0) for upload in uploads)`. */
  function TotalSize(uploads: seq<Item>): int
  {
    if uploads == [] then 0 else NumOr0(uploads[0].fileSize) + TotalSize(uploads[1..])
  }

  lemma {:induction false} TotalSizeAppend(a: seq<Item>, b: seq<Item>)
    ensures TotalSize(a + b) == TotalSize(a) + TotalSize(b)
  {
    if a == [] {
      assert a + b == b;
    } else {
      assert (a + b)[1..] == a[1..] + b;
      TotalSizeAppend(a[1..], b);
    }
  }

  /** With non-negative sizes the total is at least each upload's size, and
    * it is zero exactly when every size is zero or missing. */
  lemma {:induction false} TotalSizeBounds(uploads: seq<Item>)
    requires forall i :: 0 <= i < |uploads| ==> NumOr0(uploads[i].fileSize) >= 0
    ensures forall i :: 0 <= i < |uploads| ==> 0 <= NumOr0(uploads[i].fileSize) <= TotalSize(uploads)
    ensures TotalSize(uploads) == 0 <==> forall i :: 0 <= i < |uploads| ==> NumOr0(uploads[i].fileSize) == 0
  {
    if uploads != [] {
      TotalSizeBounds(uploads[1..]);
      assert forall i :: 1 <= i < |uploads| ==> uploads[i] == uploads[1..][i - 1];
    }
  }

  /** The two storage figures `load_settings_data` shows: the number of
    * uploads and the total size in bytes (shown as bytes / 1024²). */
  datatype Totals = Totals(uploads: nat, bytes: int)

  function SettingsTotals(history: HistoryResponse): (t: Totals)
    ensures history.Failed? ==> t == Totals(0, 0)
    ensures t.uploads == |UploadsOf(history)|
    ensures t.bytes == TotalSize(UploadsOf(history))
  {
    if history.Failed? then Totals(0, 0)
    else
      var uploads := UploadsOf(history);
      Totals(|uploads|, TotalSize(uploads))
  }

  /** Size in megabytes as the label shows it before rounding. */
  function Megabytes(bytes: int): real
  {
    bytes as real / (1024.0 * 1024.0)
  }

  // ------------------------------------------------------------ delete all

  /** `DeleteAllThread.run`: an error answer is reported and nothing is
    * deleted; otherwise one delete per listed upload, in order, with the
    * listed `upload_id` (possibly missing), then the count is reported. */
  method DeleteAllUploads(history: HistoryResponse) returns (success: bool, message: string, deletes: seq<Option<string>>)
    ensures history.Failed? ==> !success && message == history.error && deletes == []
    ensures history.Loaded? ==>
              success && |deletes| == |UploadsOf(history)| &&
              (forall i :: 0 <= i < |deletes| ==> deletes[i] == UploadsOf(history)[i].uploadId) &&
              message == "Successfully deleted " + NatToString(|deletes|) + " uploads!"
  {
    if history.Failed? {
      return false, history.error, [];
    }
    var uploads := UploadsOf(history);
    deletes := [];
    for i := 0 to |uploads|
      invariant |deletes| == i && forall k :: 0 <= k < i ==> deletes[k] == uploads[k].uploadId
    {
      deletes := deletes + [uploads[i].uploadId];
    }
    success := true;
    message := "Successfully deleted " + NatToString(|uploads|) + " uploads!";
  }

  // ------------------------------------------------------------ export all

  /** A CSV cell as `csv.DictWriter` receives it. */
  datatype CsvCell = Text(text: string) | Whole(n: int) | Fraction(x: real)

  const ExportFields: seq<string> :=
    ["Upload ID", "Filename", "Status", "Rows", "File Size (KB)", "Upload Date", "Analysis Date"]

  /** The row written for one upload, in the order of the field names. */
  function ExportRow(u: Item): (row: seq<CsvCell>)
    ensures |row| == |ExportFields|
  {
    [Text(GetOr(u.uploadId, "")),
     Text(GetOr(u.filename, "")),
     Text(GetOr(u.status, "")),
     if u.rows.Some? then Whole(u.rows.value) else Text(""),
     Fraction(NumOr0(u.fileSize) as real / 1024.0),
     Text(GetOr(u.dateFormatted, "")),
     Text(GetOr(u.analysisDateFormatted, ""))]
  }

  /** Each row keeps the upload's identifying fields, blanks what is
    * missing, and gives the size in kilobytes: times 1024 it is the byte
    * count (0 when missing). */
  lemma ExportRowFacts(u: Item)
    ensures var row := ExportRow(u);
            row[0] == Text(GetOr(u.uploadId, "")) && row[1] == Text(GetOr(u.filename, "")) &&
            (u.uploadId.None? ==> row[0] == Text("")) &&
            row[4].Fraction? && row[4].x * 1024.0 == NumOr0(u.fileSize) as real &&
            (u.fileSize.None? ==> row[4].x == 0.0) &&
            (row[3].Whole? <==> u.rows.Some?)
  {
  }

  /** `chemizer_data_export_<timestamp>.csv`. */
  function ExportFileName(stamp: string): string
  {
    "chemizer_data_export_" + stamp + ".csv"
  }

  /** `DownloadAllThread.run`: an error answer is reported and nothing is
    * written; otherwise the header and one row per upload, in order, and
    * the path is reported. The path of the file on the Desktop is a
    * parameter. */
  method ExportAllUploads(history: HistoryResponse, csvPath: string) returns (success: bool, message: string, header: seq<string>, rows: seq<seq<CsvCell>>)
    ensures history.Failed? ==> !success && message == history.error && header == [] && rows == []
    ensures history.Loaded? ==>
              success && header == ExportFields && |rows| == |UploadsOf(history)| &&
              (forall i :: 0 <= i < |rows| ==> rows[i] == ExportRow(UploadsOf(history)[i])) &&
              message == "Data exported to: " + csvPath
  {
    if history.Failed? {
      return false, history.error, [], [];
    }
    var uploads := UploadsOf(history);
    header := ExportFields;
    rows := [];
    for i := 0 to |uploads|
      invariant |rows| == i && forall k :: 0 <= k < i ==> rows[k] == ExportRow(uploads[k])
    {
      rows := rows + [ExportRow(uploads[i])];
    }
    success := true;
    message := "Data exported to: " + csvPath;
  }
}
