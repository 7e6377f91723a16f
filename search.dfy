/**
 * The search page: the query taken from the URL, when it is copied into the
 * shared search query, and the page's own filter, which lower-cases the
 * query once and then tests the four fields.
 */
module Search {

  import opened Wrappers
  import Text
  import Home

  /** `queryParams.get('query') || ''` */
  function QueryFromUrl(param: Option<string>): string {
    match param
    case Some(q) => q
    case None => ""
  }

  /** `queryFromUrl && queryFromUrl !== searchQuery` */
  predicate ShouldSync(queryFromUrl: string, searchQuery: string) {
    queryFromUrl != "" && queryFromUrl != searchQuery
  }

  /** The search query once the effect has run. */
  function SyncedQuery(queryFromUrl: string, searchQuery: string): (q: string)
    ensures queryFromUrl != "" ==> q == queryFromUrl
    ensures queryFromUrl == "" ==> q == searchQuery
  {
    if ShouldSync(queryFromUrl, searchQuery) then queryFromUrl else searchQuery
  }

  /** Running the effect again after a sync copies nothing: the update settles. */
  lemma SyncSettles(queryFromUrl: string, searchQuery: string)
    ensures !ShouldSync(queryFromUrl, SyncedQuery(queryFromUrl, searchQuery))
    ensures SyncedQuery(queryFromUrl, SyncedQuery(queryFromUrl, searchQuery)) == SyncedQuery(queryFromUrl, searchQuery)
  {
  }

  /** The callback, given the already lower-cased `query`. */
  predicate Keeps(e: Home.Experience, query: string) {
    || Text.Includes(Text.Lower(e.title), query)
    || Text.Includes(Text.Lower(e.description), query)
    || Text.Includes(Text.Lower(e.location), query)
    || Text.Includes(Text.Lower(e.category), query)
  }

  function FilterLowered(experiences: seq<Home.Experience>, query: string): (r: seq<Home.Experience>)
    ensures |r| <= |experiences|
    ensures forall e | e in r :: e in experiences && Keeps(e, query)
    decreases |experiences|
  {
    if experiences == [] then []
    else if Keeps(experiences[0], query) then [experiences[0]] + FilterLowered(experiences[1..], query)
    else FilterLowered(experiences[1..], query)
  }

  /** `experiences.filter(...)` with `query = searchQuery.toLowerCase()` */
  function Filter(experiences: seq<Home.Experience>, searchQuery: string): (r: seq<Home.Experience>)
    ensures |r| <= |experiences|
    ensures forall e | e in r :: e in experiences && Home.Matches(e, searchQuery)
  {
    FilterLowered(experiences, Text.Lower(searchQuery))
  }

  /** The search page and the home page list the same experiences for the same query. */
  lemma {:induction false} SameAsHome(experiences: seq<Home.Experience>, searchQuery: string)
    ensures Filter(experiences, searchQuery) == Home.Filter(experiences, searchQuery)
    decreases |experiences|
  {
    if experiences != [] {
      SameAsHome(experiences[1..], searchQuery);
    }
  }

  /** An experience is listed exactly when it is in the list and a field contains the query. */
  lemma FilterMembership(experiences: seq<Home.Experience>, searchQuery: string, e: Home.Experience)
    ensures e in Filter(experiences, searchQuery) <==> e in experiences && Keeps(e, Text.Lower(searchQuery))
  {
    SameAsHome(experiences, searchQuery);
    Home.FilterMembership(experiences, searchQuery, e);
  }

  /** The result keeps the original order and holds only listed experiences. */
  lemma FilterIsSubsequence(experiences: seq<Home.Experience>, searchQuery: string)
    ensures Home.IsSubsequence(Filter(experiences, searchQuery), experiences)
  {
    SameAsHome(experiences, searchQuery);
    Home.FilterIsSubsequence(experiences, searchQuery);
  }

  /** Filtering a concatenation filters each part, repeats included. */
  lemma FilterAppend(xs: seq<Home.Experience>, ys: seq<Home.Experience>, searchQuery: string)
    ensures Filter(xs + ys, searchQuery) == Filter(xs, searchQuery) + Filter(ys, searchQuery)
  {
    SameAsHome(xs + ys, searchQuery);
    SameAsHome(xs, searchQuery);
    SameAsHome(ys, searchQuery);
    Home.FilterAppend(xs, ys, searchQuery);
  }

  /** With no query every experience is listed. */
  lemma EmptyQueryKeepsAll(experiences: seq<Home.Experience>)
    ensures Filter(experiences, "") == experiences
  {
    SameAsHome(experiences, "");
    Home.EmptyQueryKeepsAll(experiences);
  }
}
