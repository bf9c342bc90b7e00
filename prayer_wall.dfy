/** The prayer wall of src/pages/PrayerWallPage.tsx: the backend query built
    from the selected category and sort order, and the client-side search
    over the fetched requests. Case-insensitive matching is modelled with
    ASCII case mapping. */
module PrayerWall {
  import opened Common
  import opened PrayerModel

  /** The category buttons, 'All' first. */
  const Categories: seq<string> := [
    "All", "General Prayer", "Healing", "Thanksgiving", "Intercession", "Worship", "Family", "Guidance", "Strength"
  ]

  datatype SortBy = Latest | Popular | MostAmens

  datatype SortColumn = CreatedAt | ResponseCount | AmenCount

  datatype Order = Order(column: SortColumn, ascending: bool)

  /** The prayer_requests query: an optional category equality filter and
      an optional order. */
  datatype Query = Query(category: Option<string>, order: Option<Order>)

  /** The rows a query selects. */
  predicate Selects(q: Query, r: PrayerRequest)
  {
    q.category.None? || r.category == q.category.value
  }

  /** fetchRequests' query construction: start from every row, narrow to
      the category unless it is 'All', then order newest first, by most
      responses or by most amens. */
  method BuildQuery(selectedCategory: string, sortBy: SortBy) returns (q: Query)
    ensures q.category.None? <==> selectedCategory == "All"
    ensures forall r :: Selects(q, r) <==> selectedCategory == "All" || r.category == selectedCategory
    ensures sortBy == Latest ==> q.order == Some(Order(CreatedAt, false))
    ensures sortBy == Popular ==> q.order == Some(Order(ResponseCount, false))
    ensures sortBy == MostAmens ==> q.order == Some(Order(AmenCount, false))
  {
    q := Query(None, None);
    if selectedCategory != "All" {
      q := q.(category := Some(selectedCategory));
    }
    match sortBy {
      case Latest => q := q.(order := Some(Order(CreatedAt, false)));
      case Popular => q := q.(order := Some(Order(ResponseCount, false)));
      case MostAmens => q := q.(order := Some(Order(AmenCount, false)));
    }
  }

  /** A request matches a search when the lower-cased query occurs in its
      lower-cased title, content or author name. */
  predicate MatchesSearch(r: PrayerRequest, query: string)
    ensures query == "" ==> MatchesSearch(r, query)
  {
    var q := Lower(query);
    Contains(Lower(r.title), q) || Contains(Lower(r.content), q) || Contains(Lower(r.userName), q)
  }

  /** filteredRequests. */
  function FilteredRequests(requests: seq<PrayerRequest>, searchQuery: string): (r: seq<PrayerRequest>)
    ensures |r| <= |requests|
  {
    if searchQuery == "" then requests
    else Filter(requests, (x: PrayerRequest) => MatchesSearch(x, searchQuery))
  }

  /** An empty search keeps every request; otherwise the result is an
      order-preserving sub-list holding exactly the matching requests. */
  lemma SearchFilter(requests: seq<PrayerRequest>, searchQuery: string)
    ensures searchQuery == "" ==> FilteredRequests(requests, searchQuery) == requests
    ensures IsSubsequence(FilteredRequests(requests, searchQuery), requests)
    ensures forall x :: x in FilteredRequests(requests, searchQuery) <==>
      x in requests && (searchQuery == "" || MatchesSearch(x, searchQuery))
  {
    var keep := (x: PrayerRequest) => MatchesSearch(x, searchQuery);
    if searchQuery == "" {
      IsSubsequenceOfSelf(requests);
    } else {
      FilterIsSubsequence(requests, keep);
      forall x ensures x in FilteredRequests(requests, searchQuery) <==> x in requests && MatchesSearch(x, searchQuery) {
        FilterMembership(requests, keep, x);
      }
    }
  }

  /** The search is not case-sensitive: a query and its lower-cased form
      keep the same requests. */
  lemma {:induction false} SearchIgnoresQueryCase(r: PrayerRequest, query: string)
    ensures MatchesSearch(r, Lower(query)) == MatchesSearch(r, query)
  {
    LowerIdempotent(query);
  }

  lemma {:induction false} LowerIdempotent(s: string)
    ensures Lower(Lower(s)) == Lower(s)
  {
    assert forall i :: 0 <= i < |s| ==> LowerChar(LowerChar(s[i])) == LowerChar(s[i]);
  }

  /** The 's' of "Showing N prayer request(s)". */
  function PluralSuffix(n: int): (suffix: string)
    ensures suffix == "s" <==> n != 1
    ensures suffix == "" <==> n == 1
  {
    if n != 1 then "s" else ""
  }

  datatype EmptyMessage = NoMatches(query: string) | NothingYet | NothingInCategory(category: string)

  /** The text shown when the filtered list is empty: the search wins over
      the category. */
  function EmptyText(searchQuery: string, selectedCategory: string): (m: EmptyMessage)
    ensures m.NoMatches? <==> searchQuery != ""
    ensures m == NothingYet <==> searchQuery == "" && selectedCategory == "All"
    ensures m.NothingInCategory? ==> m.category == selectedCategory
  {
    if searchQuery != "" then NoMatches(searchQuery)
    else if selectedCategory == "All" then NothingYet
    else NothingInCategory(selectedCategory)
  }

  class PrayerWallPage {
    var requests: seq<PrayerRequest>
    var selectedCategory: string
    var sortBy: SortBy
    var searchQuery: string
    var loading: bool

    constructor()
      ensures requests == [] && selectedCategory == "All" && sortBy == Latest && searchQuery == "" && loading
    {
      requests := [];
      selectedCategory := "All";
      sortBy := Latest;
      searchQuery := "";
      loading := true;
    }

    /** fetchRequests: sends the query for the current choices and, when the
        rows come back, replaces the list; loading ends either way. `rows` is
        None when the query fails. */
    method FetchRequests(rows: Option<seq<PrayerRequest>>) returns (sent: Query)
      modifies this
      ensures sent.category.None? <==> selectedCategory == "All"
      ensures forall r :: Selects(sent, r) <==> selectedCategory == "All" || r.category == selectedCategory
      ensures sortBy == Latest ==> sent.order == Some(Order(CreatedAt, false))
      ensures sortBy == Popular ==> sent.order == Some(Order(ResponseCount, false))
      ensures sortBy == MostAmens ==> sent.order == Some(Order(AmenCount, false))
      ensures requests == (if rows.Some? then rows.value else old(requests))
      ensures !loading
      ensures selectedCategory == old(selectedCategory) && sortBy == old(sortBy) && searchQuery == old(searchQuery)
    {
      sent := BuildQuery(selectedCategory, sortBy);
      if rows.Some? {
        requests := rows.value;
      }
      loading := false;
    }

    /** What the list shows. */
    function Shown(): (r: seq<PrayerRequest>)
      reads this
      ensures |r| <= |requests|
    {
      FilteredRequests(requests, searchQuery)
    }
  }
}
