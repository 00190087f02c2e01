/**
 * An upload as the clients receive it: the JSON object of the history
 * endpoints, each field possibly absent.
 */
module ClientUploads {
  import opened Common

  datatype Item = Item(
    uploadId: Option<string>,
    filename: Option<string>,
    uploadDate: Option<string>,
    dateFormatted: Option<string>,
    rows: Option<int>,
    fileSize: Option<int>,
    status: Option<string>,
    analysisDateFormatted: Option<string>)

  /** The answer of `get_upload_history`: an error, or a body whose
    * `uploads` key may be missing. */
  datatype HistoryResponse = Failed(error: string) | Loaded(uploads: Option<seq<Item>>)

  /** The uploads a client works with after the call: none on an error or
    * when the key is missing. */
  function UploadsOf(response: HistoryResponse): seq<Item>
  {
    if response.Loaded? && response.uploads.Some? then response.uploads.value else []
  }

  /** `d.get(key, default)` for a string field. */
  function GetOr(x: Option<string>, default: string): (r: string)
    ensures x.Some? ==> r == x.value
    ensures x.None? ==> r == default
  {
    if x.Some? then x.value else default
  }

  /** `d.get(key, 0)` for a number field. */
  function NumOr0(x: Option<int>): (r: int)
    ensures x.Some? ==> r == x.value
    ensures x.None? ==> r == 0
  {
    if x.Some? then x.value else 0
  }
}
