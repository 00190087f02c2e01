/**
 * The web upload page (web/src/pages/Main.tsx): the file-type check, the
 * progress message, and the upload handler with the id it remembers for
 * the results page. The upload is split at its awaited call into the part
 * before it, the progress callbacks, the answer, and the delayed redirect.
 */
module MainPage {
  import opened Common
  import opened Json

  const ProgressMessages: seq<string> := [
    "Uploading file...",
    "Parsing CSV data...",
    "Validating data types...",
    "Calculating statistics...",
    "Generating charts...",
    "Creating analysis...",
    "Finalizing results..."]

  /** `Math.floor((progress / 100) * (messages.length - 1))`, clamped to the
    * last message. */
  function MessageIndex(progress: nat): (k: nat)
    ensures k < |ProgressMessages|
  {
    var raw := ((progress as real / 100.0) * ((|ProgressMessages| - 1) as real)).Floor;
    assert raw >= 0;
    Min(raw, |ProgressMessages| - 1)
  }

  function ProgressMessage(progress: nat): string
  {
    ProgressMessages[MessageIndex(progress)]
  }

  /** For the percentages the upload reports (0 to 100) the index is
    * 6·p div 100: it never falls as the upload advances, starts at
    * "Uploading file..." and ends at "Finalizing results...". */
  lemma MessageIndexFacts(p: nat, q: nat)
    requires p <= q <= 100
    ensures MessageIndex(p) == 6 * p / 100
    ensures MessageIndex(p) <= MessageIndex(q)
    ensures ProgressMessage(0) == "Uploading file..." && ProgressMessage(100) == "Finalizing results..."
  {
    FloorScaled(p);
    FloorScaled(q);
    FloorScaled(0);
    FloorScaled(100);
  }

  lemma FloorScaled(p: nat)
    requires p <= 100
    ensures ((p as real / 100.0) * 6.0).Floor == 6 * p / 100
  {
    var k := 6 * p / 100;
    var x := (p as real / 100.0) * 6.0;
    assert x == (6 * p) as real / 100.0;
    assert k * 100 <= 6 * p < (k + 1) * 100;
    assert k as real <= x < (k + 1) as real;
  }

  /** Every message is shown at some percentage. */
  lemma EveryMessageShown(k: nat)
    requires k < |ProgressMessages|
    ensures exists p: nat :: p <= 100 && MessageIndex(p) == k
  {
    var p := (100 * k + 5) / 6;
    FloorScaled(p);
    assert MessageIndex(p) == k;
  }

  /** A chosen file: its name and MIME type. */
  datatype FileInfo = FileInfo(name: string, mime: string)

  const ValidTypes: seq<string> := [
    "text/csv",
    "application/vnd.ms-excel",
    "application/vnd.openxmlformats-officedocument.spreadsheetml.sheet"]

  /** The upload's answer: a truthy `result.error` message, or the created
    * record (an answer whose `error` is empty or absent counts as data). */
  datatype UploadAnswer = UploadError(error: string) | UploadData(data: Json)

  /** `data.upload_id || data.id`, when truthy. */
  function ChosenId(data: Json): (r: Option<Json>)
    ensures r.Some? ==> JsTruthy(r.value)
  {
    var members := if data.JObj? then data.members else [];
    var u := Get(members, "upload_id");
    var i := Get(members, "id");
    if u.Some? && JsTruthy(u.value) then u
    else if i.Some? && JsTruthy(i.value) then i
    else None
  }

  /** The record's own `upload_id` wins when present and non-empty; the
    * numeric `id` is the fallback; with neither, nothing is chosen. */
  lemma ChosenIdFacts(data: Json, id: string)
    requires data.JObj?
    ensures Get(data.members, "upload_id") == Some(JStr(id)) && id != [] ==> ChosenId(data) == Some(JStr(id))
    ensures (Get(data.members, "upload_id").None? || !JsTruthy(Get(data.members, "upload_id").value)) ==>
              ChosenId(data) == (var i := Get(data.members, "id"); if i.Some? && JsTruthy(i.value) then i else None)
  {
  }

  class MainPage {
    var selectedFile: Option<FileInfo>
    var uploading: bool
    var progress: nat
    /** `localStorage['current_upload_id']`. */
    var currentUploadId: Option<string>
    var location: string

    /** The bar is at 0 whenever no upload is under way, and never past 100. */
    predicate Valid()
      reads this
    {
      progress <= 100 && (!uploading ==> progress == 0)
    }

    /** The "Upload and Analyze" button's `disabled`. */
    predicate UploadDisabled()
      reads this
    {
      selectedFile.None? || uploading
    }

    constructor (currentUploadId: Option<string>)
      ensures Valid() && selectedFile.None? && !uploading && this.currentUploadId == currentUploadId && location == "/main"
    {
      selectedFile := None;
      uploading := false;
      progress := 0;
      this.currentUploadId := currentUploadId;
      location := "/main";
    }

    /** `handleFileSelect`: no file does nothing; a file of one of the three
      * spreadsheet types becomes the selection; any other is refused and
      * the previous selection stays. */
    method FileSelect(file: Option<FileInfo>) returns (message: Option<string>)
      requires Valid()
      modifies this
      ensures Valid()
      ensures file.None? ==> message.None? && selectedFile == old(selectedFile)
      ensures file.Some? && file.value.mime in ValidTypes ==>
                selectedFile == file && message == Some(file.value.name + " selected")
      ensures file.Some? && file.value.mime !in ValidTypes ==>
                selectedFile == old(selectedFile) && message == Some("Please select a valid CSV or Excel file")
      ensures uploading == old(uploading) && progress == old(progress) && currentUploadId == old(currentUploadId)
      ensures location == old(location)
    {
      if file.None? {
        return None;
      }
      if file.value.mime in ValidTypes {
        selectedFile := file;
        message := Some(file.value.name + " selected");
      } else {
        message := Some("Please select a valid CSV or Excel file");
      }
    }

    /** `handleUploadAndAnalyze` up to the call: refused without a file,
      * otherwise the upload starts at 0%. */
    method BeginUpload() returns (started: bool)
      requires Valid()
      modifies this
      ensures Valid()
      ensures started <==> old(selectedFile).Some?
      ensures started ==> uploading && progress == 0
      ensures !started ==> uploading == old(uploading) && progress == old(progress)
      ensures selectedFile == old(selectedFile) && currentUploadId == old(currentUploadId) && location == old(location)
    {
      if selectedFile.None? {
        return false;
      }
      uploading := true;
      progress := 0;
      started := true;
    }

    /** The progress callback, with the rounded percentage sent so far. */
    method Progress(p: nat)
      requires Valid() && uploading && p <= 100
      modifies this
      ensures Valid() && progress == p && uploading
      ensures selectedFile == old(selectedFile) && currentUploadId == old(currentUploadId) && location == old(location)
    {
      progress := p;
    }

    /** The answer: an error ends the upload at 0%; a record stores the
      * chosen id (the old one stays when none is chosen) and waits for the
      * redirect. */
    method FinishUpload(answer: UploadAnswer, num: real -> string)
      requires Valid()
      modifies this
      ensures Valid()
      ensures answer.UploadError? ==> !uploading && progress == 0 && currentUploadId == old(currentUploadId)
      ensures answer.UploadData? ==>
                uploading == old(uploading) && progress == old(progress) &&
                currentUploadId == (var c := ChosenId(answer.data);
                                    if JsTruthy(answer.data) && c.Some? then Some(JsStr(c.value, num)) else old(currentUploadId))
      ensures selectedFile == old(selectedFile) && location == old(location)
    {
      if answer.UploadError? {
        uploading := false;
        progress := 0;
        return;
      }
      if JsTruthy(answer.data) {
        var c := ChosenId(answer.data);
        if c.Some? {
          currentUploadId := Some(JsStr(c.value, num));
        }
      }
    }

    /** The timer two seconds after a successful answer. */
    method Redirect()
      requires Valid()
      modifies this
      ensures Valid() && !uploading && progress == 0 && location == "/results"
      ensures selectedFile == old(selectedFile) && currentUploadId == old(currentUploadId)
    {
      uploading := false;
      progress := 0;
      location := "/results";
    }
  }
}
