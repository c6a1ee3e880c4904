/**
 * The knowledge-base view: the list of the selected tab (quotes shown as items
 * named "Quote") narrowed by a case-insensitive search.
 */
module LibraryView {
  import opened Wrappers
  import opened Types
  import opened Text
  import opened Seqs

  /** A quote as the view shows it. */
  function QuoteItem(q: string): LibraryItem {
    LibraryItem("Quote", Some(q), None, None)
  }

  /**
   * `getData`: the library list the tab names; the quotes become items; the
   * tabs that name no library list give the empty list.
   */
  function GetData(lib: Library, tab: TabType): (r: seq<LibraryItem>)
    ensures tab == MentalModels ==> r == lib.mentalModels
    ensures tab == Productivity ==> r == lib.productivity
    ensures tab == Investors ==> r == lib.investors
    ensures tab == Quotes ==> |r| == |lib.quotes| && forall i :: 0 <= i < |r| ==> r[i] == QuoteItem(lib.quotes[i])
    ensures tab == Protocols || tab == Workouts ==> r == []
  {
    match tab
    case MentalModels => lib.mentalModels
    case Productivity => lib.productivity
    case Investors => lib.investors
    case Quotes => MapSeq(lib.quotes, QuoteItem)
    case _ => []
  }

  /** The lowercased search occurs in the lowercased name, description or resource. */
  predicate SearchMatches(search: string, item: LibraryItem) {
    var s := ToLower(search);
    Includes(ToLower(item.name), s)
    || (item.desc.Some? && Includes(ToLower(item.desc.value), s))
    || (item.resource.Some? && Includes(ToLower(item.resource.value), s))
  }

  /** `filteredData`: the matching items of the tab, in order, each as often as in the tab; an empty search keeps them all. */
  function Filtered(lib: Library, tab: TabType, search: string): (r: seq<LibraryItem>)
    ensures IsSubsequence(r, GetData(lib, tab))
    ensures forall x :: x in r <==> x in GetData(lib, tab) && SearchMatches(search, x)
    ensures search == "" ==> r == GetData(lib, tab)
    ensures forall x :: multiset(r)[x] == if SearchMatches(search, x) then multiset(GetData(lib, tab))[x] else 0
  {
    var data := GetData(lib, tab);
    FilterIsSubsequence(data, x => SearchMatches(search, x));
    FilterCounts(data, x => SearchMatches(search, x));
    EmptySearchMatches(data, search);
    Filter(data, x => SearchMatches(search, x))
  }

  lemma EmptySearchMatches(data: seq<LibraryItem>, search: string)
    ensures search == "" ==> Filter(data, x => SearchMatches(search, x)) == data
  {
    if search == "" {
      forall i | 0 <= i < |data| ensures SearchMatches(search, data[i]) {
        IncludesEmpty(ToLower(data[i].name));
      }
      FilterAll(data, x => SearchMatches(search, x));
    }
  }

  /** On the quotes tab every item is named "Quote", so a search inside "quote" keeps every quote. */
  lemma QuoteSearchKeepsAll(lib: Library, search: string)
    requires Includes("quote", ToLower(search))
    ensures Filtered(lib, Quotes, search) == GetData(lib, Quotes)
  {
    var data := GetData(lib, Quotes);
    assert ToLower("Quote") == "quote";
    forall i | 0 <= i < |data| ensures SearchMatches(search, data[i]) {
      assert data[i].name == "Quote";
    }
    FilterAll(data, x => SearchMatches(search, x));
  }

  /** A search matching nothing in the tab empties the view. */
  lemma NoMatchEmpty(lib: Library, tab: TabType, search: string)
    requires forall i :: 0 <= i < |GetData(lib, tab)| ==> !SearchMatches(search, GetData(lib, tab)[i])
    ensures Filtered(lib, tab, search) == []
  {
    FilterNone(GetData(lib, tab), x => SearchMatches(search, x));
  }
}
