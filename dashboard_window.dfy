/**
 * The desktop dashboard (desktop-app/ui/dashboard_window.py): the welcome
 * line, the three counters and the recent-activity table. The success rate
 * is kept as a real; its one-decimal display is not modelled.
 */
module DashboardWindow {
  import opened Common
  import opened ClientUploads

  /** The answer of `get_profile`: an error, or a body whose `full_name`
    * may be missing (None also stands for null). */
  datatype ProfileResponse = ProfileError | Profile(fullName: Option<string>)

  /** The welcome line for a full name, or None where `split()[0]` raises
    * (a name made only of whitespace). */
  function WelcomeText(fullName: Option<string>): (r: Option<string>)
  {
    var name := GetOr(fullName, "User");
    if name == [] then Some("Welcome back, User!")
    else if FirstWord(name).None? then None
    else Some("Welcome back, " + FirstWord(name).value + "!")
  }

  /** A name without whitespace is its own first word. */
  lemma FirstWordOfWord(s: string)
    requires s != [] && forall i :: 0 <= i < |s| ==> !IsSpace(s[i])
    ensures FirstWord(s) == Some(s)
  {
    assert TrimLeft(s) == s[0..];
    var w := Word(s);
    assert w == s[..|s|] == s;
  }

  /** The greeting is "User" when the name is missing or empty. */
  lemma WelcomeDefault(fullName: Option<string>)
    requires fullName.None? || fullName == Some("")
    ensures WelcomeText(fullName) == Some("Welcome back, User!")
  {
    if fullName.None? {
      var u := "User";
      assert u[0] == 'U' && u[1] == 's' && u[2] == 'e' && u[3] == 'r';
      FirstWordOfWord(u);
      assert GetOr(fullName, "User") == u;
      assert "Welcome back, " + u + "!" == "Welcome back, User!";
    }
  }

  /** The greeting fails (where `split()[0]` raises) exactly for a
    * non-empty name made only of whitespace; otherwise it names the first
    * whitespace-free word of the name. */
  lemma WelcomeWord(fullName: Option<string>)
    requires fullName.Some? && fullName.value != []
    ensures WelcomeText(fullName).None? <==> Blank(fullName.value)
    ensures !Blank(fullName.value) ==>
              WelcomeText(fullName) == Some("Welcome back, " + FirstWord(fullName.value).value + "!") &&
              FirstWord(fullName.value).value != [] &&
              forall i :: 0 <= i < |FirstWord(fullName.value).value| ==> !IsSpace(FirstWord(fullName.value).value[i])
  {
  }

  predicate IsCompleted(u: Item) { u.status == Some("Completed") }

  /** `len([u for u in history if u.get("status") == "Completed"])`. */
  function CompletedCount(history: seq<Item>): (n: nat)
  {
    CountIf(history, IsCompleted)
  }

  /** The success rate in percent: completed over total, 0 with no uploads. */
  function SuccessRate(completed: nat, total: nat): (r: real)
    requires completed <= total
    ensures 0.0 <= r <= 100.0
    ensures total > 0 ==> r * total as real == completed as real * 100.0
    ensures total == 0 ==> r == 0.0
    ensures r == 100.0 <==> total > 0 && completed == total
  {
    if total > 0 then completed as real / total as real * 100.0 else 0.0
  }

  /** The completed count never exceeds the total, and equals it exactly
    * when every upload is completed. */
  lemma {:induction false} CompletedBounds(history: seq<Item>)
    ensures CompletedCount(history) <= |history|
    ensures CompletedCount(history) == |history| <==> forall i :: 0 <= i < |history| ==> IsCompleted(history[i])
  {
    if history != [] {
      CompletedBounds(history[1..]);
      assert forall i :: 1 <= i < |history| ==> history[i] == history[1..][i - 1];
    }
  }

  /** The badge of a status: anything but "Completed" or "Processing",
    * including a missing status, shows as failed. */
  function StatusLabel(status: Option<string>): (r: string)
  {
    if status == Some("Completed") then "\U{2713} DONE"
    else if status == Some("Processing") then "\U{23F3} PROCESS"
    else "\U{2717} FAILED"
  }

  lemma StatusLabelCases(status: Option<string>)
    ensures StatusLabel(status) == "\U{2713} DONE" <==> status == Some("Completed")
    ensures StatusLabel(status) == "\U{23F3} PROCESS" <==> status == Some("Processing")
    ensures StatusLabel(status) == "\U{2717} FAILED" <==> status != Some("Completed") && status != Some("Processing")
  {
  }

  /** Even rows are shaded, odd rows white. */
  function RowColor(index: nat): string
  {
    if index % 2 == 0 then "#f9fafb" else "#ffffff"
  }

  /** The first four cells of an activity row (the fifth holds the actions
    * menu) and its background. */
  datatype ActivityRow = ActivityRow(badge: string, filename: string, date: string, rows: string, background: string)

  function ActivityRowOf(u: Item, index: nat): ActivityRow
  {
    ActivityRow(StatusLabel(u.status), GetOr(u.filename, "N/A"), GetOr(u.dateFormatted, "N/A"),
                if u.rows.Some? then IntToString(u.rows.value) else "N/A", RowColor(index))
  }

  /** Consecutive rows alternate between the two backgrounds. */
  lemma RowColorsAlternate(i: nat)
    ensures RowColor(i) != RowColor(i + 1)
    ensures RowColor(i) == RowColor(i + 2)
  {
  }

  class DashboardView {
    var welcome: string
    var totalText: string
    var completedText: string
    var successRate: real
    var activity: seq<ActivityRow>

    constructor ()
      ensures activity == []
    {
      welcome := "Welcome back!";
      totalText := "0";
      completedText := "0";
      successRate := 0.0;
      activity := [];
    }

    /** `populate_activity`: one row per upload, in order. */
    method PopulateActivity(uploads: seq<Item>)
      modifies this
      ensures |activity| == |uploads|
      ensures forall i :: 0 <= i < |uploads| ==> activity[i] == ActivityRowOf(uploads[i], i)
      ensures welcome == old(welcome) && totalText == old(totalText) && completedText == old(completedText)
      ensures successRate == old(successRate)
    {
      var rows: seq<ActivityRow> := [];
      for i := 0 to |uploads|
        invariant |rows| == i
        invariant forall k :: 0 <= k < i ==> rows[k] == ActivityRowOf(uploads[k], k)
      {
        rows := rows + [ActivityRowOf(uploads[i], i)];
      }
      activity := rows;
    }

    /** `load_dashboard_data`: the greeting from the profile (left as it was
      * on a profile error), then the counters and the activity table over
      * the history, which is empty on an error. A whitespace-only name
      * raises before anything else is shown, which `ok` false reports. */
    method LoadDashboardData(profile: ProfileResponse, response: HistoryResponse) returns (ok: bool)
      modifies this
      ensures ok <==> profile.ProfileError? || WelcomeText(profile.fullName).Some?
      ensures !ok ==> welcome == old(welcome) && activity == old(activity) && totalText == old(totalText) &&
                      completedText == old(completedText) && successRate == old(successRate)
      ensures ok ==>
                var history := UploadsOf(response);
                var completed := CompletedCount(history);
                completed <= |history| &&
                welcome == (if profile.Profile? then WelcomeText(profile.fullName).value else old(welcome)) &&
                totalText == NatToString(|history|) && completedText == NatToString(completed) &&
                successRate == SuccessRate(completed, |history|) &&
                |activity| == |history| &&
                forall i :: 0 <= i < |history| ==> activity[i] == ActivityRowOf(history[i], i)
    {
      if profile.Profile? {
        var text := WelcomeText(profile.fullName);
        if text.None? {
          return false;
        }
        welcome := text.value;
      }
      var history: seq<Item>;
      if response.Failed? {
        history := [];
      } else {
        history := if response.uploads.Some? then response.uploads.value else [];
      }
      var total := |history|;
      var completed := CompletedCount(history);
      CompletedBounds(history);
      totalText := NatToString(total);
      completedText := NatToString(completed);
      successRate := SuccessRate(completed, total);
      PopulateActivity(history);
      ok := true;
    }
  }
}
