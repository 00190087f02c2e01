/**
 * The desktop history window (desktop-app/ui/history_window.py): loading
 * the caller's uploads, the search-and-status filter, the four sort orders
 * and the "Showing n of m uploads" line.
 */
module HistoryWindow {
  import opened Common
  import opened ClientUploads

  function DateKey(u: Item): string { GetOr(u.uploadDate, "") }

  function NameKey(u: Item): string { LowerStr(GetOr(u.filename, "")) }

  /** Comparison by a string key, ascending or (with `desc`) descending. */
  function ByKey(key: Item -> string, desc: bool): (Item, Item) -> bool
  {
    (a: Item, b: Item) => if desc then StrLe(key(b), key(a)) else StrLe(key(a), key(b))
  }

  lemma ByKeyOrder(key: Item -> string, desc: bool)
    ensures TotalPreorder(ByKey(key, desc))
  {
    var le := ByKey(key, desc);
    forall a, b ensures le(a, b) || le(b, a) {
      StrLeTotal(key(a), key(b));
    }
    forall a, b, c | le(a, b) && le(b, c) ensures le(a, c) {
      if desc {
        StrLeTrans(key(c), key(b), key(a));
      } else {
        StrLeTrans(key(a), key(b), key(c));
      }
    }
  }

  /** The comparison behind each entry of the sort box; None for any other
    * text, which leaves the list as it is. */
  function Ordering(sortBy: string): (r: Option<(Item, Item) -> bool>)
    ensures r.Some? <==> sortBy in {"Newest First", "Oldest First", "Filename A-Z", "Filename Z-A"}
  {
    if sortBy == "Newest First" then Some(ByKey(DateKey, true))
    else if sortBy == "Oldest First" then Some(ByKey(DateKey, false))
    else if sortBy == "Filename A-Z" then Some(ByKey(NameKey, false))
    else if sortBy == "Filename Z-A" then Some(ByKey(NameKey, true))
    else None
  }

  /** Each comparison is a total preorder, so sorting by it is well defined;
    * Newest First puts the later ISO date first and Filename A-Z the
    * lower-cased name that comes first. */
  lemma OrderingFacts(sortBy: string, a: Item, b: Item)
    requires Ordering(sortBy).Some?
    ensures TotalPreorder(Ordering(sortBy).value)
    ensures sortBy == "Newest First" ==> (Ordering(sortBy).value(a, b) <==> StrLe(DateKey(b), DateKey(a)))
    ensures sortBy == "Oldest First" ==> (Ordering(sortBy).value(a, b) <==> StrLe(DateKey(a), DateKey(b)))
    ensures sortBy == "Filename A-Z" ==> (Ordering(sortBy).value(a, b) <==> StrLe(NameKey(a), NameKey(b)))
    ensures sortBy == "Filename Z-A" ==> (Ordering(sortBy).value(a, b) <==> StrLe(NameKey(b), NameKey(a)))
  {
    if sortBy == "Newest First" || sortBy == "Oldest First" {
      ByKeyOrder(DateKey, sortBy == "Newest First");
    } else {
      ByKeyOrder(NameKey, sortBy == "Filename Z-A");
    }
  }

  /** The list after `sort_history` with the given sort box text. */
  function Arranged(s: seq<Item>, sortBy: string): (r: seq<Item>)
  {
    if Ordering(sortBy).Some? then SortBy(s, Ordering(sortBy).value) else s
  }

  /** Sorting keeps every upload exactly as often as before, and a known
    * order leaves the list sorted by it. */
  lemma ArrangedFacts(s: seq<Item>, sortBy: string)
    ensures multiset(Arranged(s, sortBy)) == multiset(s)
    ensures Ordering(sortBy).Some? ==> SortedBy(Arranged(s, sortBy), Ordering(sortBy).value)
    ensures Ordering(sortBy).None? ==> Arranged(s, sortBy) == s
  {
    if Ordering(sortBy).Some? {
      OrderingFacts(sortBy, Item(None, None, None, None, None, None, None, None), Item(None, None, None, None, None, None, None, None));
      SortByCorrect(s, Ordering(sortBy).value);
    }
  }

  /** The two tests of `filter_history`; `search` is already lower-cased. */
  predicate Passes(u: Item, search: string, status: string)
  {
    (search == [] || Contains(NameKey(u), search)) &&
    (status == "All" || GetOr(u.status, "") == status)
  }

  function Passing(search: string, status: string): Item -> bool
  {
    u => Passes(u, search, status)
  }

  function InfoText(showing: nat, total: nat): string
  {
    "Showing " + NatToString(showing) + " of " + NatToString(total) + " uploads"
  }

  class HistoryView {
    var allUploads: seq<Item>
    var filteredUploads: seq<Item>
    var info: string

    /** The shown list is drawn from the loaded one. */
    predicate Valid()
      reads this
    {
      multiset(filteredUploads) <= multiset(allUploads)
    }

    constructor ()
      ensures allUploads == [] && filteredUploads == [] && Valid()
    {
      allUploads := [];
      filteredUploads := [];
      info := "";
    }

    /** `populate_table`'s info line. */
    method PopulateTable()
      requires Valid()
      modifies this
      ensures allUploads == old(allUploads) && filteredUploads == old(filteredUploads)
      ensures info == InfoText(|filteredUploads|, |allUploads|)
      ensures |filteredUploads| <= |allUploads|
    {
      info := InfoText(|filteredUploads|, |allUploads|);
      assert multiset(allUploads) == multiset(filteredUploads) + (multiset(allUploads) - multiset(filteredUploads));
      assert |multiset(filteredUploads)| <= |multiset(allUploads)|;
    }

    /** `load_history`: an error loads nothing; otherwise the `uploads` list
      * (none when the key is missing); either way the shown list becomes a
      * copy of it, unfiltered and unsorted. */
    method LoadHistory(response: HistoryResponse)
      modifies this
      ensures allUploads == UploadsOf(response)
      ensures filteredUploads == allUploads
      ensures info == InfoText(|allUploads|, |allUploads|)
      ensures Valid()
    {
      if response.Failed? {
        allUploads := [];
      } else {
        allUploads := if response.uploads.Some? then response.uploads.value else [];
      }
      filteredUploads := allUploads;
      PopulateTable();
    }

    /** `sort_history`: the shown list sorted in place by the chosen order. */
    method SortHistory(sortBy: string)
      requires Valid()
      modifies this
      ensures allUploads == old(allUploads)
      ensures filteredUploads == Arranged(old(filteredUploads), sortBy)
      ensures info == InfoText(|filteredUploads|, |allUploads|)
      ensures Valid()
    {
      ArrangedFacts(filteredUploads, sortBy);
      filteredUploads := Arranged(filteredUploads, sortBy);
      PopulateTable();
    }

    /** `filter_history`: the loaded uploads passing both tests, in their
      * loaded order, then sorted. */
    method FilterHistory(searchText: string, statusFilter: string, sortBy: string)
      modifies this
      ensures allUploads == old(allUploads)
      ensures filteredUploads == Arranged(Filter(allUploads, Passing(LowerStr(searchText), statusFilter)), sortBy)
      ensures info == InfoText(|filteredUploads|, |allUploads|)
      ensures Valid()
    {
      var search := LowerStr(searchText);
      var all := allUploads;
      var kept: seq<Item> := [];
      for i := 0 to |all|
        invariant kept == Filter(all[..i], Passing(search, statusFilter))
        invariant allUploads == all
      {
        var u := all[i];
        FilterSnoc(all[..i], u, Passing(search, statusFilter));
        assert all[..i + 1] == all[..i] + [u];
        if search != [] && !Contains(NameKey(u), search) {
          continue;
        }
        if statusFilter != "All" && GetOr(u.status, "") != statusFilter {
          continue;
        }
        kept := kept + [u];
      }
      assert all[..|all|] == all;
      FilterFacts(all, Passing(search, statusFilter));
      filteredUploads := kept;
      SortHistory(sortBy);
    }
  }

  /** What the filter keeps: exactly the uploads whose lower-cased name
    * contains the lower-cased search text (any, when it is empty) and whose
    * status is the chosen one (any, for "All"), each as often as loaded. */
  lemma FilterKeeps(all: seq<Item>, searchText: string, statusFilter: string, sortBy: string, u: Item)
    ensures var shown := Arranged(Filter(all, Passing(LowerStr(searchText), statusFilter)), sortBy);
            (u in shown <==>
               u in all && (searchText == [] || Contains(NameKey(u), LowerStr(searchText))) &&
               (statusFilter == "All" || GetOr(u.status, "") == statusFilter)) &&
            multiset(shown) <= multiset(all)
  {
    var p := Passing(LowerStr(searchText), statusFilter);
    FilterFacts(all, p);
    ArrangedFacts(Filter(all, p), sortBy);
    var shown := Arranged(Filter(all, p), sortBy);
    assert u in shown <==> u in multiset(shown);
    assert u in Filter(all, p) <==> u in multiset(Filter(all, p));
  }

  /** With no search text and status "All" nothing is filtered out. */
  lemma EmptyFilterKeepsAll(all: seq<Item>)
    ensures Filter(all, Passing("", "All")) == all
  {
    FilterAll(all, Passing("", "All"));
  }
}
