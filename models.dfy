/**
 * The backend's stored entities (backend/accounts/models.py): the upload
 * record with its status choices and field defaults, and the e-mail
 * one-time password with its generation and validity rule. Times are
 * whole seconds supplied by the caller; the random digits are a parameter.
 */
module Models {
  import opened Common
  import opened Frame
  import opened Stats

  // ------------------------------------------------------------ Upload

  datatype Status = Processing | Completed | Failed

  function StatusName(s: Status): string
  {
    match s
    case Processing => "Processing"
    case Completed => "Completed"
    case Failed => "Failed"
  }

  /** The `choices` check: only the three stored names are accepted. */
  function ParseStatus(x: string): (r: Option<Status>)
  {
    if x == "Processing" then Some(Processing)
    else if x == "Completed" then Some(Completed)
    else if x == "Failed" then Some(Failed)
    else None
  }

  /** Every status has a distinct stored name that parses back to it, and
    * only those three names parse. */
  lemma StatusRoundTrip(s: Status, x: string)
    ensures ParseStatus(StatusName(s)) == Some(s)
    ensures ParseStatus(x) == Some(s) ==> x == StatusName(s)
    ensures ParseStatus(x).None? <==> x !in {"Processing", "Completed", "Failed"}
  {
  }

  /** One stored upload. The JSON fields are kept in column order; the
    * preview keeps each row's cells in column order. */
  datatype Upload = Upload(
    owner: string,
    uploadId: string,
    filename: string,
    filePath: string,
    rows: int,
    columns: int,
    fileSize: int,
    columnNames: seq<string>,
    dataTypes: seq<(string, string)>,
    missingValues: seq<(string, nat)>,
    summaryStats: seq<(string, Summary)>,
    dataPreview: seq<seq<Cell>>,
    status: Status,
    uploadDate: int)

  /** A record as created with only the required fields given: every other
    * field takes its declared default. */
  function NewUpload(owner: string, uploadId: string, filename: string, filePath: string, now: int): (u: Upload)
  {
    Upload(owner, uploadId, filename, filePath, 0, 0, 0, [], [], [], [], [], Processing, now)
  }

  /** The consistency the ingestion view keeps between a record's fields:
    * one name, dtype and null count per column, summaries only for named
    * columns, at most 100 preview rows of full width, counts within range. */
  predicate Consistent(u: Upload)
  {
    u.rows >= 0 && u.columns >= 0 && u.fileSize >= 0 &&
    |u.columnNames| == u.columns && |u.dataTypes| == u.columns && |u.missingValues| == u.columns &&
    (forall j :: 0 <= j < u.columns ==>
       u.dataTypes[j].0 == u.columnNames[j] && u.missingValues[j].0 == u.columnNames[j] &&
       u.missingValues[j].1 <= u.rows) &&
    (forall k :: 0 <= k < |u.summaryStats| ==> u.summaryStats[k].0 in u.columnNames) &&
    |u.dataPreview| <= 100 && |u.dataPreview| <= u.rows &&
    (forall i :: 0 <= i < |u.dataPreview| ==> |u.dataPreview[i]| == u.columns)
  }

  /** The defaults: zero counts, empty JSON fields, status Processing; such
    * a record is consistent. */
  lemma NewUploadDefaults(owner: string, uploadId: string, filename: string, filePath: string, now: int)
    ensures var u := NewUpload(owner, uploadId, filename, filePath, now);
            u.status == Processing && u.rows == 0 && u.columns == 0 && u.fileSize == 0 &&
            u.columnNames == [] && u.dataTypes == [] && u.missingValues == [] &&
            u.summaryStats == [] && u.dataPreview == [] && Consistent(u)
  {
  }

  // ------------------------------------------------------------ EmailOTP

  /** Ten minutes, in seconds. */
  const OtpLifetime: int := 10 * 60

  const OtpLength: nat := 6

  /** `''.join(random.choices(string.digits, k=n))` for the drawn indices. */
  function OtpFromDraw(draw: seq<nat>): (code: string)
    requires forall i :: 0 <= i < |draw| ==> draw[i] < 10
    ensures |code| == |draw|
    ensures forall i :: 0 <= i < |code| ==> IsDigit(code[i])
  {
    seq(|draw|, i requires 0 <= i < |draw| => DigitChar(draw[i]))
  }

  /** Every six-digit string is a possible code (each digit can be drawn). */
  lemma EveryCodeDrawable(code: string)
    requires |code| == OtpLength && forall i :: 0 <= i < |code| ==> IsDigit(code[i])
    ensures exists draw: seq<nat> :: |draw| == OtpLength && (forall i :: 0 <= i < |draw| ==> draw[i] < 10) &&
                                      OtpFromDraw(draw) == code
  {
    var draw := seq(|code|, i requires 0 <= i < |code| => (code[i] as int - '0' as int) as nat);
    assert forall i :: 0 <= i < |draw| ==> DigitChar(draw[i]) == code[i];
    assert OtpFromDraw(draw) == code;
  }

  /** `is_valid`: unset expiry is never valid; otherwise unverified and not yet expired. */
  predicate OtpValid(expiresAt: Option<int>, verified: bool, now: int)
  {
    if expiresAt.None? then false else !verified && now < expiresAt.value
  }

  /** A verified code, or one without an expiry, is never valid; a fresh
    * unverified code is valid for exactly ten minutes from its generation. */
  lemma OtpValidity(verified: bool, generatedAt: int, now: int)
    ensures !OtpValid(None, verified, now)
    ensures verified ==> forall e :: !OtpValid(e, true, now)
    ensures !verified ==> (OtpValid(Some(generatedAt + OtpLifetime), false, now) <==> now < generatedAt + OtpLifetime)
  {
  }

  class EmailOtp {
    var email: string
    var otp: string
    var createdAt: int
    var expiresAt: Option<int>
    var verified: bool
    var user: string

    /** `EmailOTP.objects.create(email=…, user=…)`: no code and no expiry yet. */
    constructor (email: string, user: string, now: int)
      ensures this.email == email && this.user == user && createdAt == now
      ensures otp == [] && expiresAt.None? && !verified
    {
      this.email := email;
      this.user := user;
      createdAt := now;
      otp := [];
      expiresAt := None;
      verified := false;
    }

    /** `generate_otp`: six drawn digits, expiring ten minutes from `now`. */
    method GenerateOtp(draw: seq<nat>, now: int) returns (code: string)
      requires |draw| == OtpLength && forall i :: 0 <= i < |draw| ==> draw[i] < 10
      modifies this
      ensures code == otp == OtpFromDraw(draw)
      ensures |code| == OtpLength && forall i :: 0 <= i < |code| ==> IsDigit(code[i])
      ensures expiresAt == Some(now + OtpLifetime)
      ensures email == old(email) && createdAt == old(createdAt) && verified == old(verified) && user == old(user)
    {
      otp := OtpFromDraw(draw);
      expiresAt := Some(now + OtpLifetime);
      code := otp;
    }

    predicate IsValid(now: int)
      reads this
    {
      OtpValid(expiresAt, verified, now)
    }
  }
}
