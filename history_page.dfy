/**
 * The web history page (web/src/pages/History.tsx): the fetched list, the
 * case-insensitive filename search kept up to date by an effect, and the
 * text shown when nothing is listed. Each handler below ends after the
 * effect it triggers has run.
 */
module HistoryPage {
  import opened Common

  datatype HistoryItem = HistoryItem(uploadId: string, filename: string)

  datatype HistoryAnswer = HistoryError(error: string) | HistoryData(uploads: Option<seq<HistoryItem>>)

  /** `filename.toLowerCase().includes(term.toLowerCase())`. */
  predicate NameMatches(u: HistoryItem, term: string)
  {
    Contains(LowerStr(u.filename), LowerStr(term))
  }

  /** The search effect: every upload for an empty term, otherwise those
    * whose name matches. */
  function Matching(uploads: seq<HistoryItem>, term: string): seq<HistoryItem>
  {
    if term == [] then uploads else Filter(uploads, (u: HistoryItem) => NameMatches(u, term))
  }

  /** The listed uploads are those whose name contains the term, ignoring
    * case, in their original order and each as often as before; the empty
    * term's shortcut lists what the filter itself would. */
  lemma MatchingFacts(uploads: seq<HistoryItem>, term: string)
    ensures forall u :: u in Matching(uploads, term) <==> u in uploads && NameMatches(u, term)
    ensures multiset(Matching(uploads, term)) <= multiset(uploads)
    ensures Matching(uploads, term) == Filter(uploads, (u: HistoryItem) => NameMatches(u, term))
  {
    FilterFacts(uploads, (u: HistoryItem) => NameMatches(u, term));
    if term == [] {
      forall u | u in uploads ensures NameMatches(u, term) {
        EmptyContained(LowerStr(u.filename));
      }
      FilterAll(uploads, (u: HistoryItem) => NameMatches(u, term));
    }
  }

  /** The message in place of the list: while loading, or when nothing is
    * listed; None when the cards are shown. */
  function EmptyState(loading: bool, listed: seq<HistoryItem>, term: string): (r: Option<string>)
    ensures r.None? <==> !loading && listed != []
  {
    if loading then Some("Loading history...")
    else if listed == [] then Some(if term != [] then "No uploads match your search" else "No uploads yet")
    else None
  }

  class HistoryPage {
    var uploads: seq<HistoryItem>
    var filtered: seq<HistoryItem>
    var loading: bool
    var searchTerm: string

    /** What the search effect keeps true. */
    predicate Valid()
      reads this
    {
      filtered == Matching(uploads, searchTerm)
    }

    constructor ()
      ensures Valid() && uploads == [] && loading && searchTerm == []
    {
      uploads := [];
      filtered := [];
      loading := true;
      searchTerm := [];
    }

    /** Typing in the search box. */
    method SetSearchTerm(term: string)
      modifies this
      ensures Valid() && searchTerm == term && uploads == old(uploads) && loading == old(loading)
    {
      searchTerm := term;
      filtered := Matching(uploads, searchTerm);
    }

    /** `fetchHistory`: an answer with `uploads` replaces the list (the
      * search still applies); otherwise the list stays; loading ends. */
    method FetchHistory(answer: HistoryAnswer)
      requires Valid()
      modifies this
      ensures Valid() && !loading && searchTerm == old(searchTerm)
      ensures uploads == (if answer.HistoryData? && answer.uploads.Some? then answer.uploads.value else old(uploads))
    {
      if answer.HistoryData? && answer.uploads.Some? {
        uploads := answer.uploads.value;
        filtered := answer.uploads.value;
        filtered := Matching(uploads, searchTerm);
      }
      loading := false;
    }
  }
}
