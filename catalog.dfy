/** What the catalog pages (shops, malls, search, blog) share: the
    case-insensitive search over a name, a text and a list of tags, the
    star-rating filter, and the option lists built from the loaded data. */
module Catalog {
  import opened Lists
  import opened Text

  /** A rating select: "any", or one of the "4.5", "4.0", "3.5" options,
      already read as a number by `Number.parseFloat`. */
  datatype RatingFilter = AnyRating | AtLeast(min: real)

  /** `selectedRating === "any" || rating >= Number.parseFloat(selectedRating)` */
  predicate MatchesRating(filter: RatingFilter, rating: real) {
    filter.AnyRating? || rating >= filter.min
  }

  /** `tags.some((tag) => tag.toLowerCase().includes(query.toLowerCase()))` */
  predicate SomeTagContains(tags: seq<string>, query: string) {
    exists i :: 0 <= i < |tags| && ContainsIgnoreCase(tags[i], query)
  }

  /** The empty query is found in every text. */
  lemma EmptyQueryMatches(s: string)
    ensures ContainsIgnoreCase(s, "")
  {
    ContainsEmpty(ToLower(s));
  }

  /** `[...new Set(values.filter(Boolean))]`: each non-empty value once. */
  function DistinctNonEmpty(values: seq<string>): (r: seq<string>)
    ensures Distinct(r) && "" !in r
    ensures forall v :: v in r <==> v in values && v != ""
  {
    Dedup(Filter(values, (v: string) => v != ""))
  }

  /** `xs.flatMap(f)` */
  function FlatMap<T, U(!new)>(xs: seq<T>, f: T -> seq<U>): (r: seq<U>)
    ensures forall u :: u in r <==> exists i :: 0 <= i < |xs| && u in f(xs[i])
  {
    if xs == [] then []
    else
      var rest := FlatMap(xs[1..], f);
      assert forall i :: 0 < i < |xs| ==> xs[i] == xs[1..][i - 1];
      f(xs[0]) + rest
  }
}
