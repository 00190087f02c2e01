/**
 * The web dashboard page (web/src/pages/Dashboard.tsx): the upload list
 * with its "Load More" window, the selection set, single and bulk
 * deletion, and the summary totals. The API's answers and the user's
 * confirmations are parameters.
 */
module DashboardPage {
  import opened Common

  /** The page's `UploadHistory` record, as far as the handlers use it. */
  datatype WebUpload = WebUpload(uploadId: string, filename: string, rows: int, fileSize: Option<int>)

  /** The history call's answer: an error, or a body whose `uploads` field
    * may be missing. */
  datatype HistoryAnswer = HistoryError(error: string) | HistoryData(uploads: Option<seq<WebUpload>>)

  const PageSize: nat := 3

  /** `uploadsHistory.slice(0, visibleCount)`. */
  function Shown(uploads: seq<WebUpload>, visible: nat): (r: seq<WebUpload>)
    ensures |r| == Min(visible, |uploads|) && r <= uploads
  {
    Take(uploads, visible)
  }

  /** `Math.min(prev + 3, uploadsHistory.length)`. */
  function MoreVisible(visible: nat, total: nat): (v: nat)
  {
    Min(visible + PageSize, total)
  }

  /** While "Load More" is offered (fewer shown than there are), pressing
    * it shows between one and three more uploads, extends what was shown,
    * and never goes past the end. */
  lemma LoadMoreFacts(uploads: seq<WebUpload>, visible: nat)
    requires visible < |uploads|
    ensures var v := MoreVisible(visible, |uploads|);
            visible < v <= |uploads| && v - visible <= PageSize &&
            Shown(uploads, visible) <= Shown(uploads, v) &&
            (v == |uploads| <==> |uploads| - visible <= PageSize)
  {
  }

  /** Uploads whose id is not selected, in order. */
  function WithoutIds(uploads: seq<WebUpload>, ids: set<string>): seq<WebUpload>
  {
    Filter(uploads, (u: WebUpload) => u.uploadId !in ids)
  }

  /** Removing by id drops exactly the uploads carrying one of the ids and
    * keeps the rest in order. */
  lemma WithoutIdsFacts(uploads: seq<WebUpload>, ids: set<string>)
    ensures forall u :: u in WithoutIds(uploads, ids) <==> u in uploads && u.uploadId !in ids
    ensures multiset(WithoutIds(uploads, ids)) <= multiset(uploads)
    ensures ids == {} ==> WithoutIds(uploads, ids) == uploads
  {
    FilterFacts(uploads, (u: WebUpload) => u.uploadId !in ids);
    if ids == {} {
      FilterAll(uploads, (u: WebUpload) => u.uploadId !in ids);
    }
  }

  /** The selection after clicking an upload's checkbox. */
  function Toggled(selected: set<string>, id: string): (r: set<string>)
  {
    if id in selected then selected - {id} else selected + {id}
  }

  /** Clicking flips exactly that upload's membership, and clicking twice
    * restores the selection. */
  lemma ToggledFacts(selected: set<string>, id: string)
    ensures id in Toggled(selected, id) <==> id !in selected
    ensures forall x :: x != id ==> (x in Toggled(selected, id) <==> x in selected)
    ensures Toggled(Toggled(selected, id), id) == selected
  {
  }

  /** `reduce((sum, item) => sum + item.rows, 0)`. */
  function TotalRows(uploads: seq<WebUpload>): int
  {
    if uploads == [] then 0 else TotalRows(uploads[..|uploads| - 1]) + uploads[|uploads| - 1].rows
  }

  /** `reduce((sum, item) => sum + (item.file_size || 0), 0)`. */
  function TotalSize(uploads: seq<WebUpload>): int
  {
    if uploads == [] then 0
    else TotalSize(uploads[..|uploads| - 1]) + (if uploads[|uploads| - 1].fileSize.Some? then uploads[|uploads| - 1].fileSize.value else 0)
  }

  /** The totals add up over any split of the list, so removing uploads
    * takes exactly their rows and bytes off the cards. */
  lemma {:induction false} TotalsAppend(a: seq<WebUpload>, b: seq<WebUpload>)
    ensures TotalRows(a + b) == TotalRows(a) + TotalRows(b)
    ensures TotalSize(a + b) == TotalSize(a) + TotalSize(b)
  {
    if b == [] {
      assert a + b == a;
    } else {
      var c := b[..|b| - 1];
      assert (a + b)[..|a + b| - 1] == a + c;
      TotalsAppend(a, c);
    }
  }

  class DashboardPage {
    var visibleCount: nat
    var uploads: seq<WebUpload>
    var loading: bool
    var selected: set<string>
    /** The ids sent to `deleteUpload`, in order. */
    var deleteCalls: seq<string>

    constructor ()
      ensures visibleCount == PageSize && uploads == [] && loading && selected == {} && deleteCalls == []
    {
      visibleCount := PageSize;
      uploads := [];
      loading := true;
      selected := {};
      deleteCalls := [];
    }

    /** "Load More" is offered while fewer uploads are shown than there are. */
    predicate LoadMoreOffered()
      reads this
    {
      visibleCount < |uploads|
    }

    /** `fetchUploadHistory`: the list is replaced only by an answer that
      * carries `uploads`; loading ends either way. */
    method FetchUploadHistory(answer: HistoryAnswer)
      modifies this
      ensures uploads == (if answer.HistoryData? && answer.uploads.Some? then answer.uploads.value else old(uploads))
      ensures !loading
      ensures visibleCount == old(visibleCount) && selected == old(selected) && deleteCalls == old(deleteCalls)
    {
      if answer.HistoryData? && answer.uploads.Some? {
        uploads := answer.uploads.value;
      }
      loading := false;
    }

    /** `handleLoadMore`. */
    method LoadMore()
      modifies this
      ensures visibleCount == MoreVisible(old(visibleCount), |uploads|)
      ensures uploads == old(uploads) && selected == old(selected) && deleteCalls == old(deleteCalls)
      ensures loading == old(loading)
    {
      visibleCount := Min(visibleCount + PageSize, |uploads|);
    }

    /** `toggleUploadSelection`. */
    method ToggleUploadSelection(id: string)
      modifies this
      ensures selected == Toggled(old(selected), id)
      ensures uploads == old(uploads) && visibleCount == old(visibleCount) && deleteCalls == old(deleteCalls)
      ensures loading == old(loading)
    {
      if id in selected {
        selected := selected - {id};
      } else {
        selected := selected + {id};
      }
    }

    /** `handleDeleteUpload`: nothing without confirmation; otherwise one
      * delete call, and the upload leaves the list only if the call
      * succeeded. The selection is left as it was. `answerError` is Some
      * exactly when the answer's `error` is truthy: an answer `{error: ""}`
      * counts as success. */
    method DeleteUpload(id: string, confirmed: bool, answerError: Option<string>)
      modifies this
      ensures !confirmed ==> deleteCalls == old(deleteCalls) && uploads == old(uploads)
      ensures confirmed ==> deleteCalls == old(deleteCalls) + [id]
      ensures confirmed && answerError.None? ==> uploads == WithoutIds(old(uploads), {id})
      ensures answerError.Some? ==> uploads == old(uploads)
      ensures selected == old(selected) && visibleCount == old(visibleCount) && loading == old(loading)
    {
      if !confirmed {
        return;
      }
      deleteCalls := deleteCalls + [id];
      if answerError.Some? {
        return;
      }
      uploads := WithoutIds(uploads, {id});
    }

    /** `handleBulkDelete`: an empty selection is refused; without
      * confirmation nothing happens; otherwise every selected id is deleted
      * once, the selected uploads leave the list whatever the calls
      * answered, and the selection is cleared. */
    method BulkDelete(confirmed: bool) returns (message: Option<string>)
      modifies this
      ensures old(selected) == {} ==>
                message == Some("Please select files to delete") &&
                deleteCalls == old(deleteCalls) && uploads == old(uploads) && selected == old(selected)
      ensures old(selected) != {} && !confirmed ==>
                message.None? && deleteCalls == old(deleteCalls) && uploads == old(uploads) && selected == old(selected)
      ensures old(selected) != {} && confirmed ==>
                |deleteCalls| >= |old(deleteCalls)| && deleteCalls[..|old(deleteCalls)|] == old(deleteCalls) &&
                var sent := deleteCalls[|old(deleteCalls)|..];
                message == Some("Uploads deleted successfully") &&
                (forall x :: x in sent <==> x in old(selected)) &&
                |sent| == |old(selected)| &&
                (forall i, j :: 0 <= i < j < |sent| ==> sent[i] != sent[j]) &&
                uploads == WithoutIds(old(uploads), old(selected)) && selected == {}
      ensures visibleCount == old(visibleCount) && loading == old(loading)
    {
      if selected == {} {
        return Some("Please select files to delete");
      }
      if !confirmed {
        return None;
      }
      var sent: seq<string> := [];
      var rest := selected;
      while rest != {}
        invariant rest <= selected
        invariant forall x :: x in sent <==> x in selected && x !in rest
        invariant |sent| + |rest| == |selected|
        invariant forall i, j :: 0 <= i < j < |sent| ==> sent[i] != sent[j]
        invariant uploads == old(uploads) && selected == old(selected) && deleteCalls == old(deleteCalls)
        invariant visibleCount == old(visibleCount) && loading == old(loading)
        decreases |rest|
      {
        var id :| id in rest;
        sent := sent + [id];
        rest := rest - {id};
      }
      deleteCalls := deleteCalls + sent;
      assert deleteCalls[|old(deleteCalls)|..] == sent;
      uploads := WithoutIds(uploads, selected);
      selected := {};
      message := Some("Uploads deleted successfully");
    }
  }
}
