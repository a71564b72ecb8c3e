/** The malls page (front/app/malls/page.tsx): the location and tag
    options built from the loaded malls, the mall filter, and the data each
    mall card is given. */
module MallsPage {
  import opened Common
  import opened Lists
  import opened Text
  import opened Catalog

  datatype Mall = Mall(mongoId: string, name: string, description: string, image: Option<string>, location: string,
                       rating: real, tags: seq<string>, shopCount: Option<int>)

  /** What a card receives: the mall with `id` copied from `_id`, a
      picture and a shop count that are always present. */
  datatype CardMall = CardMall(id: string, mongoId: string, name: string, description: string, image: string,
                               location: string, rating: real, tags: seq<string>, shopCount: int)

  const Placeholder := "/placeholder.svg"

  /** `{ ...mall, id: mall._id, image: mall.image || "/placeholder.svg",
      shopCount: mall.shopCount ?? 0 }`: a missing or empty picture is
      replaced, while a shop count is replaced only when missing, so a
      count of 0 is kept as 0. */
  function CardOf(m: Mall): (c: CardMall)
    ensures c.id == m.mongoId && c.mongoId == m.mongoId
    ensures c.name == m.name && c.description == m.description && c.location == m.location
    ensures c.rating == m.rating && c.tags == m.tags
    ensures c.image == (if Truthy(m.image) then m.image.value else Placeholder)
    ensures m.shopCount.Some? ==> c.shopCount == m.shopCount.value
    ensures m.shopCount.None? ==> c.shopCount == 0
  {
    CardMall(m.mongoId, m.mongoId, m.name, m.description, if Truthy(m.image) then m.image.value else Placeholder,
             m.location, m.rating, m.tags, m.shopCount.GetOr(0))
  }

  function LocationsOf(malls: seq<Mall>): (all: seq<string>)
    ensures forall l :: l in all <==> exists i :: 0 <= i < |malls| && malls[i].location == l
  {
    var all := seq(|malls|, i requires 0 <= i < |malls| => malls[i].location);
    assert forall l :: (exists i :: 0 <= i < |malls| && malls[i].location == l) ==> l in all by {
      forall l | exists i :: 0 <= i < |malls| && malls[i].location == l
        ensures l in all
      {
        var i :| 0 <= i < |malls| && malls[i].location == l;
        assert all[i] == l;
      }
    }
    all
  }

  /** `locations`: every mall's location once; unlike the shops page, an
      empty location is not dropped. */
  function Locations(malls: seq<Mall>): (r: seq<string>)
    ensures Distinct(r)
    ensures forall l :: l in r <==> exists i :: 0 <= i < |malls| && malls[i].location == l
  {
    Dedup(LocationsOf(malls))
  }

  /** `allTags`: every tag of every mall once. */
  function AllTags(malls: seq<Mall>): (r: seq<string>)
    ensures Distinct(r)
    ensures forall t :: t in r <==> exists i :: 0 <= i < |malls| && t in malls[i].tags
  {
    Dedup(FlatMap(malls, (m: Mall) => m.tags))
  }

  predicate MallMatches(m: Mall, query: string, rating: RatingFilter, location: string, tag: string) {
    && (ContainsIgnoreCase(m.name, query) || ContainsIgnoreCase(m.description, query))
    && MatchesRating(rating, m.rating)
    && (location == "all" || m.location == location)
    && (tag == "all" || tag in m.tags)
  }

  /** `filteredMalls`: the malls the search and the three selects let
      through, in their original order. */
  function FilteredMalls(malls: seq<Mall>, query: string, rating: RatingFilter, location: string,
                         tag: string): (r: seq<Mall>)
    ensures IsSubsequence(r, malls)
    ensures forall m :: m in r <==> m in malls && MallMatches(m, query, rating, location, tag)
    ensures forall m {:trigger multiset(r)[m]} :: multiset(r)[m] == if MallMatches(m, query, rating, location, tag) then multiset(malls)[m] else 0
  {
    var keep := (m: Mall) => MallMatches(m, query, rating, location, tag);
    FilterIsSubsequence(malls, keep);
    FilterCount(malls, keep);
    Filter(malls, keep)
  }

  /** Every tag offered by the tag select matches at least one mall when
      the search is empty and the other selects are on their wildcards. */
  lemma OfferedTagShowsAMall(malls: seq<Mall>, tag: string)
    requires tag in AllTags(malls)
    ensures FilteredMalls(malls, "", AnyRating, "all", tag) != []
  {
    var i :| 0 <= i < |malls| && tag in malls[i].tags;
    EmptyQueryMatches(malls[i].name);
    assert malls[i] in FilteredMalls(malls, "", AnyRating, "all", tag);
  }

  /** Likewise every location offered by the location select. */
  lemma OfferedLocationShowsAMall(malls: seq<Mall>, location: string)
    requires location in Locations(malls)
    ensures FilteredMalls(malls, "", AnyRating, location, "all") != []
  {
    var i :| 0 <= i < |malls| && malls[i].location == location;
    EmptyQueryMatches(malls[i].name);
    assert malls[i] in FilteredMalls(malls, "", AnyRating, location, "all");
  }
}
