# Chemizer Analytics, modelled in Dafny

Chemizer Analytics lets a user upload a CSV or Excel table, stores a profile
of it, and renders the stored profile as charts, tables and a PDF report. It
has three parts:

- a Django backend;
- a PyQt desktop client;
- a React web client.

This project models the logic of all three over abstract values.

- **Backend** (`backend/accounts`):
  - the e-mail one-time password (OTP) and upload records;
  - the registration, OTP and file-size serializers;
  - ingestion of an uploaded file into a stored record;
  - the owner-scoped record store: history, single delete, bulk delete and delete-all;
  - the login, OTP-resend and OTP-verify views, and the password-change guard chain;
  - the PDF report as a sequence of document elements.
- **Desktop client** (`desktop-app`):
  - the HTTP wrapper's error formatting, headers and token capture;
  - the history window's filter and sort;
  - the dashboard counters;
  - the results window's chart scheduling and data preparation;
  - the settings window's password dialog, totals, delete-all and export;
  - the sign-up form;
  - the OTP dialog.
- **Web client** (`web/src`):
  - the API wrapper over `localStorage`;
  - the session context with its 48-hour expiry;
  - the OTP form with its resend countdown;
  - the dashboard, history, results and upload pages.

Everything outside the program's own logic is a parameter:

- the CSV and Excel readers, and pandas' `describe`;
- `float()`, `parseFloat` and the square root;
- number formatting and the clock;
- the random OTP digits;
- the e-mail sender and the HTTP transport.

Each stateful object of the source is a Dafny `class`: its methods change its fields, and their contracts state what each field they may change becomes, and that the others keep their values. Pure rules are functions, with lemmas stating what they promise.

The modules are:

- `Common`, `Json`, `Frame` and `Stats`: shared strings, JSON values, the abstract table and the statistics;
- `Models`, `Serializers`, `Uploads`, `Accounts` and `Report`: the backend;
- `DjangoClient`, `ClientUploads`, `HistoryWindow`, `DashboardWindow`, `ResultsWindow`, `SettingsWindow`, `SignupWindow` and `OtpDialog`: the desktop client;
- `ApiClient`, `AuthContext`, `OtpVerification`, `DashboardPage`, `HistoryPage`, `ResultsPage` and `MainPage`: the web client.

## Model

| member | source | states |
|---|---|---|
| Models.StatusRoundTrip | backend/accounts/models.py:46-50 | every status's stored name parses back to it, and exactly the three choice names parse |
| Models.NewUploadDefaults | backend/accounts/models.py:57-68 | a new record has zero rows, columns and size, empty JSON fields and status Processing, and is consistent |
| Models.OtpFromDraw | backend/accounts/models.py:20 | the code has one character per drawn index, each a decimal digit |
| Models.EveryCodeDrawable | backend/accounts/models.py:20 | every six-digit string can be drawn as a code |
| Models.OtpValidity | backend/accounts/models.py:25-29 | an unset expiry is never valid; a verified code is never valid; a fresh unverified code is valid exactly while now is before generation time plus ten minutes |
| Models.EmailOtp.constructor | backend/accounts/views.py:243-246 | a created row has the given e-mail and user, no code, no expiry and is unverified |
| Models.EmailOtp.GenerateOtp | backend/accounts/models.py:18-23 | the code is six decimal digits, stored and returned; it expires ten minutes after now; the other fields are unchanged |
| Serializers.LengthErrors | backend/accounts/serializers.py:6-11 | no message exactly when the value is within both length bounds; otherwise the maximum or minimum message |
| Serializers.CharFieldFacts | backend/accounts/serializers.py:6-11 | a field is accepted exactly when present, not blank and its trimmed value is within bounds; the accepted value is that trimmed non-empty text; an absent optional field is not an error |
| Serializers.RegisterErrors | backend/accounts/serializers.py:5-21 | no errors exactly when none of the six fields is rejected; the messages of a rejected username, e-mail, password or date of birth appear under its own name |
| Serializers.RegisterAccepted | backend/accounts/serializers.py:6-21 | an accepted registration has a free username of 1 to 150 characters, an unregistered well-formed e-mail and a password of at least 8 characters, each the trimmed input, and the date of birth as given, a date when present |
| Serializers.RegisterRefusals | backend/accounts/serializers.py:8-21 | a taken username, a registered e-mail, a short password and a date of birth that is not a date are each refused under their field with their message |
| Serializers.RegisterValidIff | backend/accounts/serializers.py:5-21 | registration is valid exactly when all six field checks pass |
| Serializers.RequiredPresent | backend/accounts/serializers.py:6-8 | the three required fields are never silently absent |
| Serializers.VerifyOtpLength | backend/accounts/serializers.py:27-29 | an accepted code has 1 to 6 characters and is the trimmed input; a longer code is refused with the length message |
| Serializers.FileSizeMbFacts | backend/accounts/serializers.py:63-65 | the size in MB is a whole number of hundredths within half a hundredth of bytes / 1048576 |
| Frame.NullCount | backend/accounts/views.py:582 | a column's null count is at most the row count |
| Frame.CountsAddUp | backend/accounts/views.py:816-817 | present and missing cells of a column add up to the row count |
| Frame.NullCountPositive | backend/accounts/views.py:894-896 | the null count is positive exactly when some row misses the cell |
| Frame.ColumnValuesCount | backend/accounts/views.py:1000-1001 | the present values of a numeric column number its non-null count |
| Frame.NumericColumns | backend/accounts/views.py:569 | the numeric columns in column order: every index is numeric, every numeric column is listed, strictly increasing |
| Stats.DescribeFacts | backend/accounts/views.py:570 | the count is the number of values; with values present min and max are values that bound all others, and min <= Q1 <= median <= Q3 <= max with the mean in range; std exists exactly with two or more values |
| Stats.QuantileWithin | backend/accounts/views.py:924-926 | a quantile of sorted values lies between the least and the greatest |
| Stats.QuantileMonotone | backend/accounts/views.py:924-926 | a higher quantile level never gives a smaller value |
| Stats.MeanWithin | backend/accounts/views.py:845 | the mean lies between any lower and upper bound of the values |
| Uploads.SplitExtFacts | backend/accounts/views.py:538 | the extension is a suffix of the name starting with its only dot and holding no slash; a name without a dot has none |
| Uploads.SplitExtOfPlainName | backend/accounts/views.py:538 | a plain name stem.ext has extension .ext |
| Uploads.AllowedPlainName | backend/accounts/views.py:537-543 | a plain name is accepted exactly when its lower-cased extension is .csv, .xlsx or .xls, whatever its case |
| Uploads.ExtensionlessRefused | backend/accounts/views.py:537-543 | a name without a dot, or a hidden name like ".csv", is refused |
| Uploads.ColumnSummary | backend/accounts/views.py:570 | a numeric column's summary counts its present cells |
| Uploads.ColumnSummaryFacts | backend/accounts/views.py:570 | std exists exactly with two or more present cells; without any, all but the count are NaN; otherwise min <= Q1 <= median <= Q3 <= max with the mean in range |
| Uploads.RecordShape | backend/accounts/views.py:572-586 | the record has the table's dimensions and column order, status Completed, the given id, owner and path, and consistent fields |
| Uploads.RecordMissing | backend/accounts/views.py:581-582 | one dtype and one null count per column, counted over the full table; the count is positive exactly when some row, even past the preview, misses the cell |
| Uploads.RecordPreview | backend/accounts/views.py:566-567 | the preview is the first min(100, rows) rows in order, missing cells "N/A", others kept |
| Uploads.SummaryEmpty | backend/accounts/views.py:569-570 | statistics are {} exactly when there is no numeric column or no row |
| Uploads.SummaryNumericOnly | backend/accounts/views.py:569-570 | each statistics entry belongs to a numeric column and counts its present cells |
| Uploads.SummaryCoversNumeric | backend/accounts/views.py:569-570 | when the numeric frame is not empty, every numeric column has an entry |
| Uploads.NewerFirstTotal | backend/accounts/views.py:85 | newest-first is a total preorder, so sorting by it is defined |
| Uploads.UploadStore.constructor | backend/accounts/models.py:44-53 | the store starts empty and keys each record by its own upload_id |
| Uploads.UploadStore.UploadFile | backend/accounts/views.py:522-612 | no file or a disallowed extension is a 400 with nothing stored; otherwise the blob is stored first; a parse failure is a 500 that leaves the blob without a record; on success the one new record is the table's record |
| Uploads.UploadStore.UploadHistory | backend/accounts/views.py:78-104 | one entry per record the caller owns and no other, newest first |
| Uploads.UploadStore.Collect | backend/accounts/views.py:87-98 | one entry per listed record, each listed record's entry present |
| Uploads.UploadStore.RemoveRecords | backend/accounts/views.py:1195-1198 | the listed records are gone with their blobs; everything else is kept |
| Uploads.UploadStore.DeleteUpload | backend/accounts/views.py:672-704 | only a record with this id owned by the caller is found, otherwise 404 with nothing changed; its blob goes first, then the record; a failing record delete leaves the blob gone and the record in place |
| Uploads.UploadStore.BulkDelete | backend/accounts/views.py:1139-1154 | an empty id list is a 400 with nothing changed; otherwise exactly the caller's records among the ids are deleted and counted; an exception partway is a 500 with its text, and only the deletions done before it (including the blob of the record whose delete raised) stay done; other users' records are untouched either way |
| Uploads.UploadStore.DeleteAll | backend/accounts/views.py:1189-1200 | the count is taken before deleting; afterwards the caller owns nothing and every other record and blob remains; an exception partway is a 500 with its text, and only the deletions done before it stay done |
| Uploads.UploadStore.Interrupted | backend/accounts/views.py:1147-1154 | a delete loop cut short: the 500 reply with the exception's text, the finished records and their blobs gone, and the blob of the record whose delete raised gone too |
| Accounts.Survivors | backend/accounts/views.py:241 | the rows left after deleting the user's unverified codes: every kept row was there and is not pending, every non-pending row is kept |
| Accounts.OtpTable.constructor | backend/accounts/models.py:7-13 | no codes, no active users, no tokens; the given users have a profile |
| Accounts.OtpTable.Issue | backend/accounts/views.py:241-247 | the user's unverified codes are deleted, then one fresh code is created and generated; afterwards it is the user's only pending code |
| Accounts.OtpTable.Login | backend/accounts/views.py:220-262 | a failed authentication is a 401 with nothing changed; otherwise the user's pending codes are deleted and one fresh, unverified code from the draw is appended for the account's e-mail, created now and expiring 10 minutes later, as the user's only pending code; it stays issued when the e-mail cannot be sent (500) |
| Accounts.OtpTable.Resend | backend/accounts/views.py:329-367 | an unknown e-mail is a 404 with nothing changed; otherwise the same delete-then-issue, the fresh code taking the requested e-mail, created now and expiring 10 minutes later, as the user's only pending code |
| Accounts.OtpTable.Latest | backend/accounts/views.py:280-284 | None exactly when no unverified row matches e-mail and code; otherwise a matching row created no earlier than any other match |
| Accounts.OtpTable.Verify | backend/accounts/views.py:268-323 | no unverified match is "Invalid OTP code" (400); otherwise the chosen row is a latest match; an expired one is refused with the expiry message (400); in both refusals nothing changes and no token is given; a valid one becomes verified and never valid again, no other row changes, its user is activated and gets its existing or a fresh token; the reply is "Login successful" with that token when the user has a profile, and the 500 of the missing profile, after those changes, when not |
| Accounts.ChangePasswordGuards | backend/accounts/views.py:116-147 | the guards in order (both fields, current password, at least 8 characters); the password is set to the new one exactly when all pass, and each refusal names the first failing guard |
| Report.FirstNumeric | backend/accounts/views.py:844 | the first min(n, #numeric) numeric columns, in order |
| Report.FirstNumericAt | backend/accounts/views.py:844 | each of those is a numeric column of the table |
| Report.ColumnInfoTable | backend/accounts/views.py:812-821 | the header, then one row per column in column order |
| Report.ColumnInfoRowFacts | backend/accounts/views.py:815-819 | each row is the name cut to 30 characters, the dtype cut to 20, and two counts that add up to the row count |
| Report.Highlights | backend/accounts/views.py:841-852 | no highlights for an empty numeric frame; otherwise, for each of the first 3 numeric columns, its mean and std paragraph then a spacer |
| Report.StatsTable | backend/accounts/views.py:854-862 | a header naming the first 5 numeric columns, then the eight statistics in the order count, mean, std, min, 25%, 50%, 75%, max |
| Report.StatsRowCells | backend/accounts/views.py:861-868 | the row is the statistic's name followed by its cell for each column |
| Report.StatCellFacts | backend/accounts/views.py:864-866 | the count cell shows the column's present-cell count; the std cell is "N/A" with fewer than two present values and the formatted std otherwise |
| Report.StatsRowFacts | backend/accounts/views.py:859-868 | at most 5 shown columns; each row has its label and one cell per shown column, each that column's cell |
| Report.MissingTable | backend/accounts/views.py:890-899 | the header, then the rows of the columns with a missing cell, in column order |
| Report.MissingRowsEmpty | backend/accounts/views.py:893-897 | there are no rows exactly when no column has a missing cell |
| Report.MissingRowsSound | backend/accounts/views.py:893-897 | every row belongs to a column with a missing cell |
| Report.MissingRowsComplete | backend/accounts/views.py:893-897 | every column with a missing cell has its row |
| Report.MissingRowFacts | backend/accounts/views.py:894-897 | the row shows the name, the null count over the whole table and that count as a percentage of the rows, which are not zero |
| Report.DistributionTable | backend/accounts/views.py:920-931 | the header, then one row per column among the first 5 numeric ones, in order |
| Report.DistributionOrdered | backend/accounts/views.py:924-929 | with a present value, min <= Q1 <= median <= Q3 <= max all exist; without one, all five are NaN |
| Report.SampleTable | backend/accounts/views.py:1076-1084 | the header, then the first min(15, rows) rows in order |
| Report.SampleCellsBounded | backend/accounts/views.py:1079-1082 | each header and cell is a prefix of its full text of at most 15 characters |
| Report.ChartPlan | backend/accounts/views.py:948-1068 | min(3, #numeric) line charts, then 6 more charts with a second numeric column and 3 without |
| Report.LineCharts | backend/accounts/views.py:952-966 | one line chart per shown column, each with at most 20 values |
| Report.BoxOf | backend/accounts/views.py:1055-1058 | a box plot with one group per labelled column |
| Report.OtherCharts | backend/accounts/views.py:968-1068 | 6 or 3 charts, none a line chart, each given what its kind allows |
| Report.ChartPlanFacts | backend/accounts/views.py:952-1058 | line, bar and pie get at most 20, 12 and 8 values; the histogram gets every present value of the first column; scatter and combined get equal counts on both axes (50 and 15 at most); the box plot gets one group per shown column |
| Report.FirstFailure | backend/accounts/views.py:949-1074 | every chart before the index can be drawn, and the one at it cannot |
| Report.RenderCharts | backend/accounts/views.py:948-1074 | the heading, then the embedded charts before the first that cannot be drawn, then a page break when all were drawn or the fallback paragraph otherwise |
| Report.EmbeddedSound | backend/accounts/views.py:963-1067 | each element is a spacer or an embeddable chart from before the cut |
| Report.EmbeddedAll | backend/accounts/views.py:963-1067 | when every chart embeds, each appears in order as an image then a spacer |
| Report.ChartsAbort | backend/accounts/views.py:1071-1074 | no chart at or after the first failure reaches the report |
| Report.SectionHeadings | backend/accounts/views.py:765-1111 | a heading over plain elements contributes exactly that heading |
| Report.FrontMatterHeadings | backend/accounts/views.py:765-812 | the front matter's headings are Dataset Overview, then Column Information |
| Report.ColumnInfoSection | backend/accounts/views.py:821-839 | the section is ColumnInfoBody: the table of every column, or "No columns to display", then a page break |
| Report.HighlightsSection | backend/accounts/views.py:841-852 | the section is HighlightsBody: a paragraph and spacer per highlighted column, then a page break |
| Report.SummarySection | backend/accounts/views.py:854-888 | the section is SummaryBody: the statistics table, or the "No numeric columns" paragraph for an empty numeric frame, then a spacer |
| Report.MissingSection | backend/accounts/views.py:890-919 | the section is MissingBody: the missing-values table, or the "No missing values" paragraph, then a spacer and a page break |
| Report.ColumnInfoBodyFacts | backend/accounts/views.py:821-839 | "No columns to display" appears exactly when the table has no column; otherwise the section is the table with a row per column and a page break |
| Report.HighlightsBodyFacts | backend/accounts/views.py:841-852 | one paragraph and spacer per highlighted column in order, then the page break; only the page break for an empty numeric frame, otherwise min(3, #numeric) paragraphs |
| Report.SummaryBodyFacts | backend/accounts/views.py:854-888 | the "No numeric columns" paragraph appears exactly when the numeric frame is empty; otherwise the table has a header and eight rows |
| Report.MissingBodyFacts | backend/accounts/views.py:890-919 | the "No missing values" paragraph appears exactly when no column has a missing cell; otherwise the section shows the table |
| Report.DistributionBodyFacts | backend/accounts/views.py:920-946 | for a non-empty numeric frame the table is shown with min(5, #numeric) rows; otherwise only the page break |
| Report.DistributionSection | backend/accounts/views.py:920-946 | the section is DistributionBody: the distribution table for a non-empty numeric frame, then a page break |
| Report.ChartSection | backend/accounts/views.py:948-1074 | the section is the rendered charts part when plotting is available and the numeric frame is not empty, and nothing otherwise; the charts heading appears exactly then, and every image is a planned chart that could be drawn and embedded |
| Report.EmbeddedImages | backend/accounts/views.py:963-1074 | the embedded elements have no heading, and every image is a drawable, embeddable chart of the plan |
| Report.RenderedSound | backend/accounts/views.py:948-1074 | the rendered section has the one heading and only drawable, embeddable planned charts |
| Report.BuildReport | backend/accounts/views.py:765-1111 | the document is ReportDocument: front matter, the five middle sections, the charts part and the data sample with the footer; title, info and overview come first, the column information right after them, and the sample table, a spacer and the footer last; the headings are the eight sections in order, the charts one only when plotting is available and there is numeric data; every image is a drawable, embeddable planned chart |
| Report.DocumentFacts | backend/accounts/views.py:765-1111 | the document has more than ten elements, the front matter first, the column information body next, the sample table, spacer and footer last, the eight headings in order and only drawable, embeddable planned charts as images |
| Report.DocumentHeadings | backend/accounts/views.py:765-1111 | the document's headings are the report's headings, the charts one only when plotting is available and there is numeric data, and every image is a drawable, embeddable planned chart |
| Report.ChartsBodyFacts | backend/accounts/views.py:948-1074 | the charts part has the charts heading exactly when it is shown, and only drawable, embeddable planned charts |
| Report.FrontMatterShape | backend/accounts/views.py:765-812 | the front matter is the title, a spacer, the info table, a spacer, the overview heading and table, a spacer and the column information heading |
| Report.ReportBody | backend/accounts/views.py:812-946 | the middle is the column information, highlights, statistical summary, missing values and distribution bodies under their headings, in that order; its headings are those four, and it has no image |
| Report.DownloadPdfReport | backend/accounts/views.py:709-1134 | an id the user does not own is a 404 "Upload not found"; a missing stored file is a 404; an unreadable file is a 500; otherwise the attachment analysis_report_ID.pdf holding ReportDocument of the re-read table, with the right info, overview and headings |
| DjangoClient.FieldLinesShape | desktop-app/api/django_client.py:88-97 | formatting succeeds exactly when every field's value renders (a list must hold only strings); then there is one "field: messages" line per field, in the dict's order |
| DjangoClient.FormatError | desktop-app/api/django_client.py:88-97 | the loop builds the lines the specification gives, and a non-dict body is its str() |
| DjangoClient.ErrorObject | desktop-app/api/django_client.py:46-48 | an object whose "error" member is the message |
| DjangoClient.BadRequest | desktop-app/api/django_client.py:156-162 | a 400 with a formattable JSON body is the formatted message; a body that is not JSON is "Bad Request: " plus the text |
| DjangoClient.DjangoApiClient.constructor | desktop-app/api/django_client.py:6-8 | no token at first |
| DjangoClient.DjangoApiClient.SetToken | desktop-app/api/django_client.py:10-11 | the stored token is the given one |
| DjangoClient.DjangoApiClient.GetHeaders | desktop-app/api/django_client.py:13-17 | always the JSON content type, and the "Token" authorization header exactly when the token is truthy |
| DjangoClient.DjangoApiClient.VerifyOtp | desktop-app/api/django_client.py:141-175 | a 400 is mapped and keeps the token; another failure is {"error": …} and keeps the token; a successful object carrying "token" replaces the stored token, any other success keeps it |
| DjangoClient.DjangoApiClient.GoogleLogin | desktop-app/api/django_client.py:207-231 | as verify_otp but without the 400 mapping |
| DjangoClient.DjangoApiClient.CaptureToken | desktop-app/api/django_client.py:164-171 | a failure keeps the token; a success returns the body and takes its "token" member when it has one |
| DjangoClient.LogoutClearsHeader | desktop-app/ui/dashboard_window.py:692 | after set_token(None) the headers carry no authorization |
| Json.Get | desktop-app/api/django_client.py:167-168 | a value exactly when some member has the key, and then it is that key's member |
| ApiClient.FormatErrorCases | web/src/lib/api.ts:487-509 | a string is returned as it is; an object with an "error" key gives only that value; other objects and arrays give one line per entry; null, booleans and numbers give "An error occurred" |
| ApiClient.FormatError | web/src/lib/api.ts:487-509 | the loop's result is the formatted error the cases lemma describes |
| ApiClient.SetTokenAuthenticates | web/src/lib/api.ts:40-50 | after setting a token the client is authenticated exactly when it is a non-empty string; clearing removes the token, the flag and the user data; no other key changes |
| ApiClient.UserRecord | web/src/lib/api.ts:116-121 | the stored user holds exactly those of user_id, username, email and full_name that the reply has, each with the reply's own value, in that order |
| ApiClient.Picked | web/src/lib/api.ts:116-121 | each picked field is one of the keys with the reply's value, and every key the reply has is picked |
| ApiClient.PickedInOrder | web/src/lib/api.ts:116-121 | the picked fields follow the order of the keys |
| ApiClient.ApiClient.constructor | web/src/lib/api.ts:23-26 | the token is read from the stored auth_token, absent when not stored |
| ApiClient.ApiClient.GetHeaders | web/src/lib/api.ts:28-38 | the JSON content type, plus "Token <t>" exactly when a non-empty token is held |
| ApiClient.ApiClient.SetToken | web/src/lib/api.ts:40-50 | the token is the given one, the storage follows the set/clear rule, and the client is authenticated exactly when the token is non-empty |
| ApiClient.ApiClient.SetUserData | web/src/lib/api.ts:56-58 | only user_data changes, to the given text |
| ApiClient.ApiClient.GetUserData | web/src/lib/api.ts:60-63 | null when user_data is absent or empty; otherwise the parse of the stored text |
| ApiClient.StoredUserAfterSet | web/src/lib/api.ts:56-63 | user data stored as non-empty text is read back as that text's parse, and no other stored key changes |
| ApiClient.ApiClient.Logout | web/src/lib/api.ts:479-481 | no token, the three session keys removed, not authenticated |
| ApiClient.ApiClient.Login | web/src/lib/api.ts:96-131 | a network failure or unparsable body is the network error and an error status its formatted body, both with nothing changed; a truthy token is stored with the user record and the login time; any other success changes nothing |
| ApiClient.ApiClient.VerifyOtp | web/src/lib/api.ts:133-166 | as login, without the login time |
| ApiClient.ApiClient.Capture | web/src/lib/api.ts:108-129 | the shared part: errors change nothing, a truthy token is stored with the user record |
| AuthContext.LeadingDigits | web/src/contexts/AuthContext.tsx:37 | the run it reads is all digits and stops at the first non-digit |
| AuthContext.ParseIntRoundTrip | web/src/contexts/AuthContext.tsx:37 | parseInt reads back the decimal text Date.now().toString() wrote (api.ts:123, AuthContext.tsx:59) as the same number |
| AuthContext.LeadingDigitsOfRun | web/src/contexts/AuthContext.tsx:37 | a run of digits followed by a non-digit is read whole, as the number it denotes |
| AuthContext.DigitsValueOfNat | web/src/contexts/AuthContext.tsx:37 | the decimal text of n denotes n |
| AuthContext.SetKeyGet | web/src/contexts/AuthContext.tsx:71 | after setting one property, reading it gives the new value and every other property is unchanged |
| AuthContext.MergeGet | web/src/contexts/AuthContext.tsx:71 | after the spread, a property of the patch has the patch's value and every other keeps the user's |
| AuthContext.FreshLoginRestores | web/src/contexts/AuthContext.tsx:35-41 | a session stored at time t is restored at now exactly when fewer than 48 hours passed |
| AuthContext.AuthProvider.constructor | web/src/contexts/AuthContext.tsx:25-27 | no user, no token, loading |
| AuthContext.AuthProvider.Restore | web/src/contexts/AuthContext.tsx:30-52 | loading ends; a live session is restored into state with storage untouched; a stored but expired or unreadable session is wiped and the client logged out; with nothing stored nothing changes |
| AuthContext.AuthProvider.DiscardSession | web/src/contexts/AuthContext.tsx:43-48 | the token, user data, timestamp and flag are gone and the client holds no token |
| AuthContext.AuthProvider.Login | web/src/contexts/AuthContext.tsx:54-60 | state, client and storage hold the new session with the login time; a non-empty token is authenticated |
| AuthContext.AuthProvider.Logout | web/src/contexts/AuthContext.tsx:62-67 | state and client cleared, the four session keys removed, not authenticated |
| AuthContext.AuthProvider.UpdateUser | web/src/contexts/AuthContext.tsx:69-75 | without a user nothing changes; otherwise the merged user is kept and stored; the token is unchanged |
| OtpVerification.KeepCodeFacts | web/src/components/OTPVerification.tsx:54-57 | the kept input is at most six digits, a prefix of the input's digits in order, unchanged by filtering again; a code of at most six digits is kept as typed |
| OtpVerification.CountdownReachesZero | web/src/components/OTPVerification.tsx:25-34 | after k firings from t the timer is t - k while k < t, and 0 from then on |
| OtpVerification.OtpForm.constructor | web/src/components/OTPVerification.tsx:19-23 | an empty code, not loading, the timer at 60 and resending not offered |
| OtpVerification.OtpForm.OtpChange | web/src/components/OTPVerification.tsx:54-57 | the input becomes the kept code; the form stays valid |
| OtpVerification.OtpForm.Tick | web/src/components/OTPVerification.tsx:25-34 | the timer counts down by one while positive, and resending is offered exactly when it is 0 |
| OtpVerification.OtpForm.BeginVerify | web/src/components/OTPVerification.tsx:36-42 | the code is handed over, with loading set, exactly when it has six digits; otherwise nothing changes |
| OtpVerification.OtpForm.FinishVerify | web/src/components/OTPVerification.tsx:43 | loading ends and nothing else changes |
| OtpVerification.OtpForm.BeginResend | web/src/components/OTPVerification.tsx:46-48 | one resend call, with resend loading set |
| OtpVerification.OtpForm.FinishResend | web/src/components/OTPVerification.tsx:49-51 | the countdown restarts at 60 and resending is withdrawn |
| OtpDialog.OtpDialog.constructor | desktop-app/ui/otp_dialog.py:12-17 | no code recorded, not accepted, both buttons enabled with their labels |
| OtpDialog.OtpDialog.BeginVerify | desktop-app/ui/otp_dialog.py:167-179 | a stripped input not six characters long is refused with the message and nothing sent; otherwise the button is disabled as "Verifying..." and the code sent |
| OtpDialog.OtpDialog.FinishVerify | desktop-app/ui/otp_dialog.py:181-189 | an error re-enables "Verify Account" and shows the error; success records the code and accepts the dialog |
| OtpDialog.OtpDialog.VerifyOtp | desktop-app/ui/otp_dialog.py:167-189 | the dialog is accepted exactly when a six-character code was sent and not refused, and then it records the stripped input |
| OtpDialog.OtpDialog.BeginResend | desktop-app/ui/otp_dialog.py:191-196 | the button is disabled as "Sending..." and one call is made |
| OtpDialog.OtpDialog.FinishResend | desktop-app/ui/otp_dialog.py:198-205 | the answer is shown and the button is enabled as "Resend" whatever it was |
| OtpDialog.OtpDialog.ResendOtp | desktop-app/ui/otp_dialog.py:191-205 | one call, and the button always ends enabled |
| HistoryWindow.ByKeyOrder | desktop-app/ui/history_window.py:677-684 | comparing by a string key, in either direction, is a total preorder |
| HistoryWindow.Ordering | desktop-app/ui/history_window.py:677-684 | an order exists exactly for the four sort-box entries |
| HistoryWindow.OrderingFacts | desktop-app/ui/history_window.py:677-684 | each order is a total preorder; Newest First puts the later upload date first, Oldest First the earlier, Filename A-Z and Z-A compare lower-cased names up and down |
| HistoryWindow.ArrangedFacts | desktop-app/ui/history_window.py:673-686 | sorting is a permutation, and a known order leaves the list sorted by it; any other text leaves it as it is |
| HistoryWindow.HistoryView.constructor | desktop-app/ui/history_window.py:65-66 | nothing loaded, nothing shown |
| HistoryWindow.HistoryView.PopulateTable | desktop-app/ui/history_window.py:648-651 | the info line reads "Showing shown of loaded uploads", and shown never exceeds loaded |
| HistoryWindow.HistoryView.LoadHistory | desktop-app/ui/history_window.py:457-469 | an error loads nothing, otherwise the uploads list (none when the key is missing); the shown list is a copy of it |
| HistoryWindow.HistoryView.SortHistory | desktop-app/ui/history_window.py:673-686 | the shown list is sorted by the chosen order; the loaded list is unchanged and still covers the shown one |
| HistoryWindow.HistoryView.FilterHistory | desktop-app/ui/history_window.py:653-671 | the shown list is the loaded uploads passing both tests, in loaded order, then sorted |
| HistoryWindow.FilterKeeps | desktop-app/ui/history_window.py:653-671 | an upload is shown exactly when it was loaded, its lower-cased name contains the lower-cased search (any, when empty) and its status is the chosen one (any, for All); none is shown more often than loaded |
| HistoryWindow.EmptyFilterKeepsAll | desktop-app/ui/history_window.py:660-669 | with no search text and status All every upload is kept, in order |
| DashboardWindow.FirstWordOfWord | desktop-app/ui/dashboard_window.py:406 | a name without whitespace is its own first word |
| DashboardWindow.WelcomeDefault | desktop-app/ui/dashboard_window.py:405-407 | a missing or empty full name greets "User" |
| DashboardWindow.WelcomeWord | desktop-app/ui/dashboard_window.py:406-407 | for a non-empty name the greeting fails exactly when the name is all whitespace; otherwise it names the first non-empty whitespace-free word |
| DashboardWindow.SuccessRate | desktop-app/ui/dashboard_window.py:420 | a percentage in [0, 100]: completed × 100 / total, 0 with no uploads, and 100 exactly when every upload completed |
| DashboardWindow.CompletedBounds | desktop-app/ui/dashboard_window.py:419 | the completed count is at most the total, and equal to it exactly when every upload is completed |
| DashboardWindow.StatusLabelCases | desktop-app/ui/dashboard_window.py:460-476 | DONE exactly for Completed, PROCESS exactly for Processing, FAILED for everything else, a missing status included |
| DashboardWindow.RowColorsAlternate | desktop-app/ui/dashboard_window.py:455-458 | consecutive rows differ in background, and rows two apart match |
| DashboardWindow.DashboardView.constructor | desktop-app/ui/dashboard_window.py:252-369 | an empty activity table |
| DashboardWindow.DashboardView.PopulateActivity | desktop-app/ui/dashboard_window.py:428-584 | one row per upload in order, each with its badge, name, date, rows and background |
| DashboardWindow.DashboardView.LoadDashboardData | desktop-app/ui/dashboard_window.py:402-426 | the greeting from the profile (kept on a profile error); the counters and the rate over the history, empty on an error; completed never exceeds total; one activity row per upload; a whitespace-only name stops before anything else is shown |
| ResultsWindow.PyGet | desktop-app/ui/results_window.py:543 | a value only when the row has the column with a non-null value, and then that value |
| ResultsWindow.ZeroFilled | desktop-app/ui/results_window.py:72 | fails exactly when some present value does not convert; otherwise one number per value, 0 for a missing one |
| ResultsWindow.PresentValues | desktop-app/ui/results_window.py:119 | the present values, as many as are present, and exactly those |
| ResultsWindow.ConvertAll | desktop-app/ui/results_window.py:119 | fails exactly when a value does not convert; otherwise each number is its value's conversion |
| ResultsWindow.Cleaned | desktop-app/ui/results_window.py:119 | fails exactly when a present value does not convert; otherwise the conversions of the present values in order |
| ResultsWindow.PieValues | desktop-app/ui/results_window.py:105 | min(10, n) slices, none negative |
| ResultsWindow.NonNegativeSum | desktop-app/ui/results_window.py:106 | a sum of non-negative slices is non-negative, and positive exactly when one slice is |
| ResultsWindow.PieDrawnIff | desktop-app/ui/results_window.py:105-108 | the pie is drawn exactly when one of the first 10 values converts to a non-zero number |
| ResultsWindow.DrawnFacts | desktop-app/ui/results_window.py:119-120 | the histogram is drawn exactly when every present value converts and one is present; the density plot (two or more values) only when the histogram would be |
| ResultsWindow.CumulativePoints | desktop-app/ui/results_window.py:218-220 | as many heights as sorted values, as many as the data |
| ResultsWindow.HeightsFacts | desktop-app/ui/results_window.py:220 | the heights k/n rise strictly, stay in (0, 1] and end at 1 |
| ResultsWindow.CumulativeFacts | desktop-app/ui/results_window.py:214-222 | the curve is the data rearranged in ascending order, and its heights rise strictly to exactly 1 |
| ResultsWindow.SlotFacts | desktop-app/ui/results_window.py:562-598 | slot i draws its configured kind on column i mod n, under the title "ðŸ“Š {col} - {chart name}" exactly as the source spells its prefix; the scatter slot pairs with the next column only when there is one, and is a line chart otherwise |
| ResultsWindow.AddChartsSection | desktop-app/ui/results_window.py:531-600 | nothing without numeric columns; otherwise min(10, n + 2) frames, frame i being configuration i's slot |
| ResultsWindow.FirstPresent | desktop-app/ui/results_window.py:668 | None exactly when every value is missing; otherwise the first present value |
| ResultsWindow.MissingCountAll | desktop-app/ui/results_window.py:667 | the missing count is at most the rows, and equal exactly when every value is missing |
| ResultsWindow.LineForFacts | desktop-app/ui/results_window.py:666-676 | the missing count is bounded by the preview; the type is Unknown exactly when every value is null, Numeric exactly when the first non-null value converts, else Text |
| ResultsWindow.AddColumnInfo | desktop-app/ui/results_window.py:643-700 | the placeholder exactly when the preview or the column list is empty; otherwise one line per column, in order |
| SettingsWindow.PasswordFormGuards | desktop-app/ui/settings_window.py:234-272 | the four guards in order with their messages; the request goes out exactly when the current password is given and the new one is confirmed and at least 8 characters |
| SettingsWindow.DialogAgreesWithServer | desktop-app/ui/settings_window.py:234-274 | a request the dialog lets through passes the server's presence and length guards, so only a wrong current password is refused (views.py:116-147) |
| SettingsWindow.ChangePasswordDialog.constructor | desktop-app/ui/settings_window.py:85-98 | not accepted, no request sent, nothing shown |
| SettingsWindow.ChangePasswordDialog.SavePassword | desktop-app/ui/settings_window.py:234-296 | a failed guard shows its message and sends nothing; otherwise exactly one request is sent, and the dialog is accepted exactly when the answer is not an error |
| SettingsWindow.TotalSizeAppend | desktop-app/ui/settings_window.py:653 | the total of two lists is the sum of their totals |
| SettingsWindow.TotalSizeBounds | desktop-app/ui/settings_window.py:653 | with non-negative sizes the total is at least each upload's size, and zero exactly when every size is zero or missing |
| SettingsWindow.SettingsTotals | desktop-app/ui/settings_window.py:648-660 | the upload count is the number of listed uploads and the byte total is the sum of their sizes (a missing size counts as 0); on an error both figures are 0 |
| SettingsWindow.DeleteAllUploads | desktop-app/ui/settings_window.py:65-80 | an error is reported with nothing deleted; otherwise one delete per listed upload in order, with its upload_id, and the count is reported |
| SettingsWindow.ExportRow | desktop-app/ui/settings_window.py:44-52 | one cell per export field |
| SettingsWindow.ExportRowFacts | desktop-app/ui/settings_window.py:44-52 | the id and name are kept, missing ones blank; the size in KB times 1024 is the byte count (0 when missing); rows is a number exactly when present |
| SettingsWindow.ExportAllUploads | desktop-app/ui/settings_window.py:20-56 | an error is reported with nothing written; otherwise the seven field names and one row per upload in order, and the path is reported |
| SignupWindow.SignupGuards | desktop-app/ui/signup_window.py:440-454 | the four checks in order with their messages; register is called exactly when every field is filled, a gender chosen, and the password confirmed and at least 6 characters |
| SignupWindow.SignupLooserThanServer | desktop-app/ui/signup_window.py:452-454 | a 6-character password passes the window, and every password under 8 characters the window lets through is refused by the registration serializer (serializers.py:8) |
| SignupWindow.HandleSignupFacts | desktop-app/ui/signup_window.py:431-472 | the server's answer matters only after the checks pass; success is reported exactly for an OTP request whose dialog is accepted; the dialog opens for the e-mail the server names; a reply that is neither an error nor an OTP request is invalid |
| SignupWindow.PasswordField.constructor | desktop-app/ui/signup_window.py:194-206 | masked, offering "Show", unfocused border |
| SignupWindow.PasswordField.ToggleVisibility | desktop-app/ui/signup_window.py:415-429 | toggled on shows the text and offers "Hide"; off masks it and offers "Show"; the button always names the other mode |
| SignupWindow.PasswordField.SetFocusStyle | desktop-app/ui/signup_window.py:337-359 | the border is the focus colour exactly while focused, and the mode is unchanged |
| DashboardPage.Shown | web/src/pages/Dashboard.tsx:268 | the listed cards are a prefix of the uploads, as many as the visible count allows |
| DashboardPage.LoadMoreFacts | web/src/pages/Dashboard.tsx:58-60 | while "Load More" is offered (line 319), pressing it shows one to three more uploads, extends what was shown and never passes the end; it reaches the end exactly when at most three were hidden |
| DashboardPage.WithoutIdsFacts | web/src/pages/Dashboard.tsx:96 | removing by id keeps exactly the uploads whose id is not among those removed, in order; removing no ids keeps the list |
| DashboardPage.ToggledFacts | web/src/pages/Dashboard.tsx:103-111 | a click flips exactly that id's membership; two clicks restore the selection |
| DashboardPage.TotalsAppend | web/src/pages/Dashboard.tsx:148-149 | the row and size totals (a missing size counting 0) add up over any split of the list |
| DashboardPage.DashboardPage.constructor | web/src/pages/Dashboard.tsx:27-30 | three visible, nothing listed, loading, nothing selected |
| DashboardPage.DashboardPage.FetchUploadHistory | web/src/pages/Dashboard.tsx:36-56 | only an answer carrying uploads replaces the list; loading ends on every path |
| DashboardPage.DashboardPage.LoadMore | web/src/pages/Dashboard.tsx:58-60 | the visible count grows by three, capped at the list length; nothing else changes |
| DashboardPage.DashboardPage.ToggleUploadSelection | web/src/pages/Dashboard.tsx:103-111 | the selection becomes the toggled set; nothing else changes |
| DashboardPage.DashboardPage.DeleteUpload | web/src/pages/Dashboard.tsx:86-101 | no call without confirmation; one call otherwise; the upload leaves the list only when the call succeeded; the selection is untouched |
| DashboardPage.DashboardPage.BulkDelete | web/src/pages/Dashboard.tsx:113-131 | an empty selection is refused with its message; unconfirmed does nothing; confirmed sends every selected id exactly once, drops the selected uploads, clears the selection |
| HistoryPage.MatchingFacts | web/src/pages/History.tsx:46-55 | the listed uploads are exactly those whose lower-cased name contains the lower-cased term, an order-preserving sub-list; the empty-term shortcut agrees with the filter |
| HistoryPage.EmptyState | web/src/pages/History.tsx:183-195 | a message replaces the list exactly while loading or when nothing is listed |
| HistoryPage.HistoryPage.constructor | web/src/pages/History.tsx:33-36 | empty, loading, no search term, and the search invariant holds |
| HistoryPage.HistoryPage.SetSearchTerm | web/src/pages/History.tsx:46-55 | after typing, the listed uploads are the matches of the new term; the uploads are unchanged |
| HistoryPage.HistoryPage.FetchHistory | web/src/pages/History.tsx:57-82 | an answer carrying uploads replaces the list, which the search still filters; loading ends; the term is kept |
| ResultsPage.NumericColumnsFacts | web/src/pages/Results.tsx:88-92 | the numeric columns are exactly the keys of `summary_stats` when it is an object, and none when it is missing or not an object; every listed column is a key of it |
| ResultsPage.ColumnSeriesFacts | web/src/pages/Results.tsx:103-108 | a series has one point per preview row up to 20, point i named by its 1-based position with row i's parsed value, 0 when the cell is missing |
| ResultsPage.PreviewShown | web/src/pages/Results.tsx:236 | the table shows a prefix of the preview |
| ResultsPage.PreviewFacts | web/src/pages/Results.tsx:236-254 | expanded shows every row; collapsed shows the first 20 and the toggle counts exactly the rows left out; with 20 rows or fewer there is no toggle and nothing is hidden |
| ResultsPage.PageChartsFacts | web/src/pages/Results.tsx:261-400 | no numeric column, no chart; otherwise up to three line charts plus bar and scatter; a pie exactly when there are two columns or more, a histogram exactly when three or more; every chart draws a numeric column |
| ResultsPage.CombinedLegendFacts | web/src/pages/Results.tsx:380-395 | a combined chart exactly when there are two numeric columns or more; it draws the first column and its line is labelled by the second, or "Value" when that name is empty |
| ResultsPage.ColumnInfoFacts | web/src/pages/Results.tsx:441 | a stored non-empty type is shown as is, a missing one as "Unknown"; a missing count shows 0 |
| ResultsPage.ResultsPage.constructor | web/src/pages/Results.tsx:12-15 | loading, nothing fetched, collapsed preview |
| ResultsPage.ResultsPage.FetchUploadDetails | web/src/pages/Results.tsx:27-48 | an error sends the user to the dashboard with nothing loaded; truthy data replaces the detail and the preview (empty when `data_preview` is absent), while falsy data changes nothing; loading ends; no answer but an error redirects |
| ResultsPage.ResultsPage.ToggleRows | web/src/pages/Results.tsx:249 | flips the expanded flag and nothing else |
| MainPage.MessageIndex | web/src/pages/Main.tsx:24-27 | the clamped index always names one of the seven messages, whatever the percentage |
| MainPage.MessageIndexFacts | web/src/pages/Main.tsx:24-27 | for 0 to 100 percent the index is 6·p div 100, never falls as the upload advances, and runs from "Uploading file..." to "Finalizing results..." |
| MainPage.EveryMessageShown | web/src/pages/Main.tsx:14-27 | each of the seven messages appears at some percentage between 0 and 100 |
| MainPage.ChosenId | web/src/pages/Main.tsx:75-76 | an id is remembered only when it is truthy |
| MainPage.ChosenIdFacts | web/src/pages/Main.tsx:75 | a non-empty `upload_id` wins; without one the truthy `id` is the fallback; with neither nothing is chosen |
| MainPage.MainPage.constructor | web/src/pages/Main.tsx:10-12 | no file, not uploading, the bar at 0, the stored id kept |
| MainPage.MainPage.FileSelect | web/src/pages/Main.tsx:29-45 | no file does nothing; a CSV, legacy Excel or xlsx MIME type becomes the selection with its message; any other type is refused and the old selection stays |
| MainPage.MainPage.BeginUpload | web/src/pages/Main.tsx:47-54 | the upload starts at 0% exactly when a file is selected; without one nothing changes and no call is made |
| MainPage.MainPage.Progress | web/src/pages/Main.tsx:57-59 | the bar shows the reported percentage, within 0 to 100 |
| MainPage.MainPage.FinishUpload | web/src/pages/Main.tsx:61-79 | an error ends the upload at 0% with the stored id kept; a record stores its chosen id, or keeps the old one when none is chosen |
| MainPage.MainPage.Redirect | web/src/pages/Main.tsx:80-84 | the upload ends at 0% and the page moves to the results |

## Left out

- Number display is not modelled: the MB and KB figures, percentages with one or two decimals, `toFixed` and `toLocaleString`. Each is a function parameter or a real kept unformatted.
- Library calls are parameters rather than models: `float()`, `parseFloat`, the square root, pandas' file readers and `describe`, and the float formatting inside them.
- Python floats are exact reals here. NaN is an absent value (None), and float rounding error is not modelled.
- Threads are not modelled: the desktop client's QThreads and the web client's awaited promises. Each handler is split at its awaited call, and the answer arrives as a parameter.
- The network, the ORM's storage, e-mail delivery and the random source are not modelled. The server's answers, the found account, "the e-mail was sent" and the drawn digits are parameters.
- The settings window's login-date formatting, the results window's generated summary text and the desktop profile labels are display text only, and are left out.
- The web history page's `handleDelete` (web/src/pages/History.tsx:120-146) is left out. It is one server delete, which Uploads.UploadStore.DeleteUpload models, followed by `fetchHistory`, which HistoryPage.HistoryPage.FetchHistory models.
- The download and share handlers of the web pages only move bytes or build a URL, and are left out.
- Report.ChartSection follows the code, not the written design. The first plotting failure aborts the remaining charts, where the design describes charts degrading one at a time. The pie chart takes the raw values, where the design mentions absolute values.
- Report.StatCellFacts is stated one way only (a present statistic shows its formatted text, a missing one "N/A"), because the formatter is an arbitrary parameter.
- DashboardPage.DashboardPage.BulkDelete follows the code: the selected uploads leave the list whatever each delete call answered.
- DashboardPage.DashboardPage.DeleteUpload follows the code: a deleted upload's id stays in the selection.
- SignupWindow.SignupGuards keeps the window's own 6-character minimum, which is looser than the server's 8 (SignupWindow.SignupLooserThanServer shows the gap).
- Serializers.FileSizeMb rounds an exact tie upwards. Python's `round` works on the binary float and rounds half to even, so only the bound proved in FileSizeMbFacts is claimed.
- DashboardWindow.WelcomeWord gives no greeting for a full name made only of whitespace, where the source raises an `IndexError`.
- HistoryWindow.ArrangedFacts proves the sorted list is ordered and a permutation of its input. That the sort is stable (equal keys keep their order) is not stated.
- DashboardPage.DashboardPage.BulkDelete: the selection is modelled as a set, so the order of the delete calls (the insertion order a JavaScript `Set` iterates in) is not captured; only "each selected id once" is claimed.
- JavaScript's reordering of integer-like object keys is not modelled. Object keys keep insertion order.
- The clients read a JSON `null` field, such as a `null` file size, as a missing one. The backend never sends a `null` size, since it writes `file_size or 0`.
- The settings window's export reads an `analysis_date_formatted` field that the backend never sends. The model keeps the field optional, so in practice that column is blank.
- Django REST Framework's `CharField` is modelled from its documented defaults: surrounding whitespace is trimmed, blank is refused unless allowed, then the length limits apply.
- Unicode case folding is not modelled. Lower-casing covers ASCII letters only.
- Common.IsSpace knows the ASCII separators only (space, tab, line feed, carriage return, vertical tab, form feed). Python's `str.isspace`, `strip()` and `split()` also treat \x1c-\x1f, \x85, the no-break space and the other Unicode spaces as whitespace, and JavaScript's `trim` treats the Unicode spaces as whitespace; text with those characters is not modelled.
- Report.SampleTable shows each cell as its own column's value. `iterrows` turns a row whose cells are all numbers into one float Series, so an `int64` value in such a row (next to a `float64` column) prints as "3.0"; that upcast is not modelled.
- DjangoClient.DjangoApiClient.CaptureToken treats only an object body as able to carry a token. In the source a string or list body containing "token" passes `"token" in data` and then raises a `TypeError`; the backend never sends such a body.
- AuthContext.JsParseInt reads decimal text only. JavaScript's `parseInt` without a radix reads a `0x` prefix as hexadecimal; the stored login timestamp is always decimal.
- Serializers.DateCheck takes "is an ISO date" as a parameter and keeps the accepted text, not the parsed date.
- Accounts.OtpTable.Verify gives the missing-profile server error a fixed message; Django's actual 500 page is not modelled.
- ResultsPage.ResultsPage.FetchUploadDetails keeps the preview only when `data_preview` is an array, and stores `[]` for any other value. The page stores whatever truthy value it is given. The backend always sends an array.
- ApiClient.TokenReply counts only a non-empty string as a token, where `if (result.token)` accepts any truthy value. The backend always sends the token key as a string.
- Json.Get returns the first member with a key. `JSON.parse` and `json.loads` keep the last of duplicated keys. The backend never sends duplicate keys.
