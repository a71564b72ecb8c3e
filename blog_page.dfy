/** The blog page (front/app/blog/page.tsx): posts filtered by the search
    box, a category and a type, sorted by one of four orders, and the
    featured and trending posts, which are taken from all loaded posts
    rather than from the filtered ones. A publication date is the number
    of milliseconds `new Date(publishedAt).getTime()` gives. */
module BlogPage {
  import opened Common
  import opened Lists
  import opened Text
  import opened Catalog

  datatype Post = Post(id: string, title: string, excerpt: string, category: string, publishedAt: int,
                       likes: int, comments: int, kind: string, tags: seq<string>)

  const AllCategories := "All Categories"

  predicate PostMatches(p: Post, query: string, category: string, kind: string) {
    && (ContainsIgnoreCase(p.title, query) || ContainsIgnoreCase(p.excerpt, query) || SomeTagContains(p.tags, query))
    && (category == AllCategories || p.category == category)
    && (kind == "all" || p.kind == kind)
  }

  /** `filteredPosts`: the posts the search, the category and the type let
      through, in their original order. */
  function FilteredPosts(posts: seq<Post>, query: string, category: string, kind: string): (r: seq<Post>)
    ensures IsSubsequence(r, posts)
    ensures forall p :: p in r <==> p in posts && PostMatches(p, query, category, kind)
    ensures forall p {:trigger multiset(r)[p]} :: multiset(r)[p] == if PostMatches(p, query, category, kind) then multiset(posts)[p] else 0
  {
    var keep := (p: Post) => PostMatches(p, query, category, kind);
    FilterIsSubsequence(posts, keep);
    FilterCount(posts, keep);
    Filter(posts, keep)
  }

  /** With an empty search and both selects on their wildcards every post
      is listed. */
  lemma WildcardsListEveryPost(posts: seq<Post>)
    ensures FilteredPosts(posts, "", AllCategories, "all") == posts
  {
    forall p | p in posts
      ensures PostMatches(p, "", AllCategories, "all")
    {
      EmptyQueryMatches(p.title);
    }
    FilterKeepsAll(posts, (p: Post) => PostMatches(p, "", AllCategories, "all"));
  }

  /** The key the comparator of each order sorts ascending by: `b - a` on
      a field is ascending on its negation. An unknown order compares
      everything equal. */
  function SortKey(sortBy: string, p: Post): int {
    match sortBy
    case "newest" => -p.publishedAt
    case "oldest" => p.publishedAt
    case "popular" => -p.likes
    case "most_comments" => -p.comments
    case _ => 0
  }

  const SortOrders: set<string> := {"newest", "oldest", "popular", "most_comments"}

  /** `sortedPosts`: a reordering of the filtered posts, newest or oldest
      first, most liked or most commented first; an unknown order keeps
      them as they are. */
  function SortedPosts(posts: seq<Post>, sortBy: string): (r: seq<Post>)
    ensures multiset(r) == multiset(posts)
    ensures sortBy == "newest" ==> forall i, j :: 0 <= i < j < |r| ==> r[i].publishedAt >= r[j].publishedAt
    ensures sortBy == "oldest" ==> forall i, j :: 0 <= i < j < |r| ==> r[i].publishedAt <= r[j].publishedAt
    ensures sortBy == "popular" ==> forall i, j :: 0 <= i < j < |r| ==> r[i].likes >= r[j].likes
    ensures sortBy == "most_comments" ==> forall i, j :: 0 <= i < j < |r| ==> r[i].comments >= r[j].comments
    ensures sortBy !in SortOrders ==> r == posts
  {
    var key := (p: Post) => SortKey(sortBy, p);
    var r := SortBy(posts, key);
    assert forall i, j :: 0 <= i < j < |r| ==> key(r[i]) <= key(r[j]);
    if sortBy in SortOrders then r
    else
      SortByConstantKey(posts, key);
      r
  }

  /** `featuredPost`: the first loaded post, if any. */
  function Featured(posts: seq<Post>): (r: Option<Post>)
    ensures r.Some? <==> posts != []
    ensures r.Some? ==> r.value == posts[0]
  {
    if |posts| > 0 then Some(posts[0]) else None
  }

  /** `trendingPosts`: the loaded posts after the first, at most three of
      them; none when there is at most one post. */
  function Trending(posts: seq<Post>): (r: seq<Post>)
    ensures |r| == (if |posts| <= 1 then 0 else if |posts| < 4 then |posts| - 1 else 3)
    ensures forall i :: 0 <= i < |r| ==> r[i] == posts[i + 1]
  {
    if |posts| > 1 then posts[1..if |posts| < 4 then |posts| else 4] else []
  }
}
