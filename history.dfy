/**
 * The history screen's list filtering: a free-text query matched against
 * title and location ignoring case, combined with a status filter; and the
 * route's handler that keeps the query and filter as local state.
 */
module History {
  import opened Wrappers
  import opened Text
  import opened Seqs

  datatype HistoryFilter = All | GoodDeal | Overpriced | HighRisk

  datatype HistoryStatus = Excellent | Overpriced | HighRisk

  datatype HistoryItem = HistoryItem(
    id: string,
    title: string,
    location: string,
    roi: string,
    price: string,
    date: string,
    status: HistoryStatus
  )

  datatype HistoryAction =
    | Sort | ViewDetails | AddNew | NavHome | NavHistory | NavAnalyze | NavProfile | Back
    | SearchChanged(query: string)
    | FilterSelected(filter: HistoryFilter)

  predicate MatchesQuery(item: HistoryItem, query: string) {
    IsBlank(query) || ContainsIgnoreCase(item.title, query) || ContainsIgnoreCase(item.location, query)
  }

  predicate MatchesFilter(status: HistoryStatus, filter: HistoryFilter) {
    match filter
    case All => true
    case GoodDeal => status == HistoryStatus.Excellent
    case Overpriced => status == HistoryStatus.Overpriced
    case HighRisk => status == HistoryStatus.HighRisk
  }

  function Keeps(query: string, filter: HistoryFilter): HistoryItem -> bool {
    (item: HistoryItem) => MatchesQuery(item, query) && MatchesFilter(item.status, filter)
  }

  /** `filteredItems`. */
  function Filtered(items: seq<HistoryItem>, query: string, filter: HistoryFilter): seq<HistoryItem> {
    Filter(items, Keeps(query, filter))
  }

  /**
   * The filtered list is a subsequence of the items; an item is in it iff it
   * is among the items and matches both the query and the filter; a kept
   * item appears as often as it does in the items.
   */
  lemma FilteredKeepsExactlyMatches(items: seq<HistoryItem>, query: string, filter: HistoryFilter)
    ensures var r := Filtered(items, query, filter);
            && IsSubsequence(r, items)
            && (forall x :: x in r <==> x in items && MatchesQuery(x, query) && MatchesFilter(x.status, filter))
            && (forall i :: 0 <= i < |items| && Keeps(query, filter)(items[i]) ==>
                  multiset(r)[items[i]] == multiset(items)[items[i]])
  {
    var r := Filtered(items, query, filter);
    FilterKeepsMultiplicity(items, Keeps(query, filter));
    forall x
      ensures x in r <==> x in items && MatchesQuery(x, query) && MatchesFilter(x.status, filter)
    {
      if x in r {
        assert Keeps(query, filter)(x);
        assert x in multiset(items);
      }
      if x in items && Keeps(query, filter)(x) {
        var i :| 0 <= i < |items| && items[i] == x;
        assert x in multiset(r);
      }
    }
  }

  /** A blank query (empty or whitespace only) matches every item. */
  lemma BlankQueryMatchesAll(item: HistoryItem, query: string)
    requires IsBlank(query)
    ensures MatchesQuery(item, query)
  {
  }

  /** A query that is not blank matches iff title or location contains it once both are case-folded. */
  lemma QueryIsCaseInsensitiveSubstring(item: HistoryItem, query: string)
    requires !IsBlank(query)
    ensures MatchesQuery(item, query) <==>
      IsSubstring(Lower(query), Lower(item.title)) || IsSubstring(Lower(query), Lower(item.location))
  {
    ContainsIgnoreCaseIsFoldedSubstring(item.title, query);
    ContainsIgnoreCaseIsFoldedSubstring(item.location, query);
  }

  /** What each status filter keeps. */
  lemma FilterTable(status: HistoryStatus)
    ensures MatchesFilter(status, All)
    ensures MatchesFilter(status, GoodDeal) <==> status == Excellent
    ensures MatchesFilter(status, HistoryFilter.Overpriced) <==> status == HistoryStatus.Overpriced
    ensures MatchesFilter(status, HistoryFilter.HighRisk) <==> status == HistoryStatus.HighRisk
  {
  }

  /** A blank query under All shows the whole list. */
  lemma BlankQueryAllShowsEverything(items: seq<HistoryItem>, query: string)
    requires IsBlank(query)
    ensures Filtered(items, query, All) == items
  {
    FilterKeepsAll(items, Keeps(query, All));
  }

  /** `HistoryRoute`'s saveable local state and its action handler. */
  class HistoryRoute {
    var query: string
    var selectedFilter: HistoryFilter

    constructor ()
      ensures query == "" && selectedFilter == All
    {
      query := "";
      selectedFilter := All;
    }

    /** The list the screen shows for the current query and filter. */
    method VisibleItems(items: seq<HistoryItem>) returns (r: seq<HistoryItem>)
      ensures r == Filtered(items, query, selectedFilter)
      ensures forall x :: x in r <==> x in items && MatchesQuery(x, query) && MatchesFilter(x.status, selectedFilter)
    {
      r := Filtered(items, query, selectedFilter);
      FilteredKeepsExactlyMatches(items, query, selectedFilter);
    }

    /**
     * A search or filter change overwrites that one variable and is not
     * passed on; every other action is passed on unchanged, state untouched.
     */
    method OnAction(action: HistoryAction) returns (forwarded: Option<HistoryAction>)
      modifies this
      ensures action.SearchChanged? ==>
        query == action.query && selectedFilter == old(selectedFilter) && forwarded == None
      ensures action.FilterSelected? ==>
        selectedFilter == action.filter && query == old(query) && forwarded == None
      ensures !action.SearchChanged? && !action.FilterSelected? ==>
        query == old(query) && selectedFilter == old(selectedFilter) && forwarded == Some(action)
    {
      match action
      case SearchChanged(q) =>
        query := q;
        forwarded := None;
      case FilterSelected(f) =>
        selectedFilter := f;
        forwarded := None;
      case _ =>
        forwarded := Some(action);
    }
  }
}
