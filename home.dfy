/**
 * The home page's search filter: keep the experiences whose title,
 * description, location or category contains the search query, ignoring
 * letter case, in their original order.
 */
module Home {

  import Text

  /** The client's view of an experience. */
  datatype Experience = Experience(
    id: string,
    title: string,
    image: string,
    price: int,
    description: string,
    location: string,
    category: string)

  /** The filter's callback. */
  predicate Matches(e: Experience, searchQuery: string): (r: bool)
    ensures searchQuery == "" ==> r
  {
    Text.IncludesEmpty(Text.Lower(e.title));
    assert Text.Lower("") == "";
    || Text.Includes(Text.Lower(e.title), Text.Lower(searchQuery))
    || Text.Includes(Text.Lower(e.description), Text.Lower(searchQuery))
    || Text.Includes(Text.Lower(e.location), Text.Lower(searchQuery))
    || Text.Includes(Text.Lower(e.category), Text.Lower(searchQuery))
  }

  /** `experiences.filter(...)` */
  function Filter(experiences: seq<Experience>, searchQuery: string): (r: seq<Experience>)
    ensures |r| <= |experiences|
    ensures forall e | e in r :: e in experiences && Matches(e, searchQuery)
    decreases |experiences|
  {
    if experiences == [] then []
    else
      var rest := Filter(experiences[1..], searchQuery);
      if Matches(experiences[0], searchQuery) then [experiences[0]] + rest else rest
  }

  /** `r` is `s` with some elements left out, the rest in order. */
  predicate IsSubsequence<T(==)>(r: seq<T>, s: seq<T>)
    decreases |s|
  {
    || r == []
    || (&& s != []
        && (|| (r[0] == s[0] && IsSubsequence(r[1..], s[1..]))
            || IsSubsequence(r, s[1..])))
  }

  /** An experience is listed exactly when it is in the list and matches. */
  lemma {:induction false} FilterMembership(experiences: seq<Experience>, searchQuery: string, e: Experience)
    ensures e in Filter(experiences, searchQuery) <==> e in experiences && Matches(e, searchQuery)
    decreases |experiences|
  {
    if experiences != [] {
      FilterMembership(experiences[1..], searchQuery, e);
      assert experiences == [experiences[0]] + experiences[1..];
    }
  }

  /**
   * Filtering a concatenation filters each part: every matching occurrence,
   * repeats included, is kept where it stood.
   */
  lemma {:induction false} FilterAppend(xs: seq<Experience>, ys: seq<Experience>, searchQuery: string)
    ensures Filter(xs + ys, searchQuery) == Filter(xs, searchQuery) + Filter(ys, searchQuery)
    decreases |xs|
  {
    if xs == [] {
      assert xs + ys == ys;
    } else {
      assert (xs + ys)[1..] == xs[1..] + ys;
      FilterAppend(xs[1..], ys, searchQuery);
    }
  }

  /** One experience is kept, once, exactly when it matches. */
  lemma FilterSingle(e: Experience, searchQuery: string)
    ensures Filter([e], searchQuery) == if Matches(e, searchQuery) then [e] else []
  {
    assert [e][1..] == [];
  }

  /** The filtered list keeps the original order. */
  lemma {:induction false} FilterIsSubsequence(experiences: seq<Experience>, searchQuery: string)
    ensures IsSubsequence(Filter(experiences, searchQuery), experiences)
    decreases |experiences|
  {
    if experiences != [] {
      FilterIsSubsequence(experiences[1..], searchQuery);
      var rest := Filter(experiences[1..], searchQuery);
      if Matches(experiences[0], searchQuery) {
        assert ([experiences[0]] + rest)[1..] == rest;
      }
    }
  }

  /** The empty query matches every experience, so nothing is filtered out. */
  lemma {:induction false} EmptyQueryKeepsAll(experiences: seq<Experience>)
    ensures Filter(experiences, "") == experiences
    decreases |experiences|
  {
    if experiences != [] {
      Text.IncludesEmpty(Text.Lower(experiences[0].title));
      assert Text.Lower("") == "";
      EmptyQueryKeepsAll(experiences[1..]);
    }
  }

  /** Queries that differ only in letter case select the same experiences. */
  lemma {:induction false} FilterIgnoresCase(experiences: seq<Experience>, query1: string, query2: string)
    requires Text.Lower(query1) == Text.Lower(query2)
    ensures Filter(experiences, query1) == Filter(experiences, query2)
    decreases |experiences|
  {
    if experiences != [] {
      FilterIgnoresCase(experiences[1..], query1, query2);
    }
  }

  /** Filtering the filtered list again changes nothing. */
  lemma {:induction false} FilterIdempotent(experiences: seq<Experience>, searchQuery: string)
    ensures Filter(Filter(experiences, searchQuery), searchQuery) == Filter(experiences, searchQuery)
    decreases |experiences|
  {
    if experiences != [] {
      var rest := Filter(experiences[1..], searchQuery);
      FilterIdempotent(experiences[1..], searchQuery);
      if Matches(experiences[0], searchQuery) {
        assert ([experiences[0]] + rest)[1..] == rest;
      }
    }
  }

  /** `searchQuery && filteredExperiences.length === 0` */
  predicate ShowsNoResults(experiences: seq<Experience>, searchQuery: string) {
    searchQuery != "" && |Filter(experiences, searchQuery)| == 0
  }

  /** "No experiences found" is shown exactly when a non-empty query matches nothing. */
  lemma NoResultsMeansNoMatch(experiences: seq<Experience>, searchQuery: string)
    ensures ShowsNoResults(experiences, searchQuery) <==>
      searchQuery != "" && forall e | e in experiences :: !Matches(e, searchQuery)
  {
    var r := Filter(experiences, searchQuery);
    if r != [] {
      FilterMembership(experiences, searchQuery, r[0]);
    }
    if searchQuery != "" && |r| == 0 {
      forall e | e in experiences
        ensures !Matches(e, searchQuery)
      {
        FilterMembership(experiences, searchQuery, e);
      }
    }
  }
}
