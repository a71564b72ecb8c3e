/** The shops page (front/app/shops/page.tsx): shops filtered by the search
    box and three selects, products filtered by the search box and grouped
    under their shop, and the category and location options. The data is
    what the page loaded; the loading itself is left out. */
module ShopsPage {
  import opened Common
  import opened Lists
  import opened Text
  import opened Catalog

  /** `_id` is the database key, `id` the key of the dummy data. */
  datatype Shop = Shop(id: string, mongoId: string, name: string, description: string, rating: real,
                       tags: seq<string>, location: string, category: string)

  datatype Product = Product(id: string, mongoId: string, name: string, description: string, price: int,
                             tags: seq<string>, shopId: string, category: string)

  /** `categories`: the shops' categories, each once, no empty value. */
  function Categories(shops: seq<Shop>): (r: seq<string>)
    ensures Distinct(r) && "" !in r
    ensures forall c :: c in r <==> c != "" && exists i :: 0 <= i < |shops| && shops[i].category == c
  {
    var all := seq(|shops|, i requires 0 <= i < |shops| => shops[i].category);
    assert forall c :: c in all <==> exists i :: 0 <= i < |shops| && shops[i].category == c by {
      forall c | exists i :: 0 <= i < |shops| && shops[i].category == c
        ensures c in all
      {
        var i :| 0 <= i < |shops| && shops[i].category == c;
        assert all[i] == c;
      }
    }
    DistinctNonEmpty(all)
  }

  /** `locations`: the shops' locations, each once, no empty value. */
  function Locations(shops: seq<Shop>): (r: seq<string>)
    ensures Distinct(r) && "" !in r
    ensures forall l :: l in r <==> l != "" && exists i :: 0 <= i < |shops| && shops[i].location == l
  {
    var all := seq(|shops|, i requires 0 <= i < |shops| => shops[i].location);
    assert forall l :: l in all <==> exists i :: 0 <= i < |shops| && shops[i].location == l by {
      forall l | exists i :: 0 <= i < |shops| && shops[i].location == l
        ensures l in all
      {
        var i :| 0 <= i < |shops| && shops[i].location == l;
        assert all[i] == l;
      }
    }
    DistinctNonEmpty(all)
  }

  predicate ShopMatches(shop: Shop, query: string, category: string, location: string, rating: RatingFilter) {
    && (ContainsIgnoreCase(shop.name, query) || ContainsIgnoreCase(shop.description, query)
        || SomeTagContains(shop.tags, query))
    && (category == "all" || shop.category == category)
    && (location == "all" || shop.location == location)
    && MatchesRating(rating, shop.rating)
  }

  /** `filteredShops`: the shops the search and every select let through,
      in their original order. */
  function FilteredShops(shops: seq<Shop>, query: string, category: string, location: string,
                         rating: RatingFilter): (r: seq<Shop>)
    ensures IsSubsequence(r, shops)
    ensures forall s :: s in r <==> s in shops && ShopMatches(s, query, category, location, rating)
    ensures forall s {:trigger multiset(r)[s]} :: multiset(r)[s] == if ShopMatches(s, query, category, location, rating) then multiset(shops)[s] else 0
  {
    var keep := (s: Shop) => ShopMatches(s, query, category, location, rating);
    FilterIsSubsequence(shops, keep);
    FilterCount(shops, keep);
    Filter(shops, keep)
  }

  /** With an empty search and every select on its wildcard, every shop is
      shown. */
  lemma WildcardsShowEveryShop(shops: seq<Shop>)
    ensures FilteredShops(shops, "", "all", "all", AnyRating) == shops
  {
    forall s | s in shops
      ensures ShopMatches(s, "", "all", "all", AnyRating)
    {
      EmptyQueryMatches(s.name);
    }
    FilterKeepsAll(shops, (s: Shop) => ShopMatches(s, "", "all", "all", AnyRating));
  }

  predicate ProductMatches(p: Product, query: string) {
    ContainsIgnoreCase(p.name, query) || ContainsIgnoreCase(p.description, query) || SomeTagContains(p.tags, query)
  }

  /** `filteredProducts`: only the search box applies to products. */
  function FilteredProducts(products: seq<Product>, query: string): (r: seq<Product>)
    ensures IsSubsequence(r, products)
    ensures forall p :: p in r <==> p in products && ProductMatches(p, query)
    ensures forall p {:trigger multiset(r)[p]} :: multiset(r)[p] == if ProductMatches(p, query) then multiset(products)[p] else 0
  {
    var keep := (p: Product) => ProductMatches(p, query);
    FilterIsSubsequence(products, keep);
    FilterCount(products, keep);
    Filter(products, keep)
  }

  /** A group of the product view: the shop and its products. */
  datatype Group = Group(shop: Shop, products: seq<Product>)

  /** `shop._id || shop.id` */
  function ShopKey(s: Shop): string {
    if s.mongoId != "" then s.mongoId else s.id
  }

  /** `allShops.find((s) => s._id === shopId || s.id === shopId)` */
  function FindShop(shops: seq<Shop>, p: Product): (r: Option<Shop>)
    ensures r.None? <==> forall i :: 0 <= i < |shops| ==> shops[i].mongoId != p.shopId && shops[i].id != p.shopId
    ensures r.Some? ==> r.value in shops && (r.value.mongoId == p.shopId || r.value.id == p.shopId)
  {
    match FirstIndex(shops, (s: Shop) => s.mongoId == p.shopId || s.id == p.shopId)
    case None => None
    case Some(i) => Some(shops[i])
  }

  /** The key of the group a product goes to, none when no shop matches. */
  function KeyOf(shops: seq<Shop>, p: Product): Option<string> {
    match FindShop(shops, p)
    case None => None
    case Some(s) => Some(ShopKey(s))
  }

  function InGroup(shops: seq<Shop>, k: string): Product -> bool {
    (p: Product) => KeyOf(shops, p) == Some(k)
  }

  /** The `reduce` callback: a product with no shop leaves the groups as
      they are; otherwise a group is opened under its shop's key on first
      use, and the product is pushed onto that group. */
  function AddProduct(shops: seq<Shop>, acc: map<string, Group>, p: Product): map<string, Group> {
    match FindShop(shops, p)
    case None => acc
    case Some(s) =>
      var key := ShopKey(s);
      var g := if key in acc then acc[key] else Group(s, []);
      acc[key := Group(g.shop, g.products + [p])]
  }

  /** The accumulator of `productsByShop` after the products `ps`. */
  function Grouped(shops: seq<Shop>, ps: seq<Product>): map<string, Group>
    decreases |ps|
  {
    if ps == [] then map[] else AddProduct(shops, Grouped(shops, ps[..|ps| - 1]), ps[|ps| - 1])
  }

  /** `productsByShop`, the `reduce` whose callback pushes onto the group
      it finds or opens. */
  method GroupByShop(shops: seq<Shop>, products: seq<Product>) returns (acc: map<string, Group>)
    ensures acc == Grouped(shops, products)
  {
    acc := map[];
    var i := 0;
    while i < |products|
      invariant 0 <= i <= |products|
      invariant acc == Grouped(shops, products[..i])
    {
      var product := products[i];
      assert products[..i + 1][..i] == products[..i];
      var shop := FindShop(shops, product);
      if shop.Some? {
        var shopKey := ShopKey(shop.value);
        if shopKey !in acc {
          acc := acc[shopKey := Group(shop.value, [])];
        }
        acc := acc[shopKey := Group(acc[shopKey].shop, acc[shopKey].products + [product])];
      }
      i := i + 1;
    }
    assert products[..i] == products;
  }

  /** What one callback does to the group under one key. */
  lemma AddProductAt(shops: seq<Shop>, acc: map<string, Group>, p: Product, k: string)
    requires k in acc ==> ShopKey(acc[k].shop) == k
    ensures var r := AddProduct(shops, acc, p);
      && (k in r <==> k in acc || KeyOf(shops, p) == Some(k))
      && (k in r ==> ShopKey(r[k].shop) == k)
      && (KeyOf(shops, p) == Some(k) ==> r[k].products == (if k in acc then acc[k].products else []) + [p])
      && (KeyOf(shops, p) != Some(k) && k in acc ==> r[k] == acc[k])
  {
  }

  /** By induction over the products: the group under `k`, when there is
      one, is non-empty, has a shop with that key and holds the products
      the filter for `k` keeps; without a group that filter keeps none. */
  lemma {:induction false} GroupedAt(shops: seq<Shop>, ps: seq<Product>, k: string)
    ensures k in Grouped(shops, ps) ==>
      && Grouped(shops, ps)[k].products == Filter(ps, InGroup(shops, k))
      && Grouped(shops, ps)[k].products != []
      && ShopKey(Grouped(shops, ps)[k].shop) == k
    ensures k !in Grouped(shops, ps) ==> Filter(ps, InGroup(shops, k)) == []
    decreases |ps|
  {
    if ps != [] {
      var front := ps[..|ps| - 1];
      var p := ps[|ps| - 1];
      var f := InGroup(shops, k);
      GroupedAt(shops, front, k);
      AddProductAt(shops, Grouped(shops, front), p, k);
      assert ps == front + [p];
      FilterAppend(front, [p], f);
      assert Filter([p], f) == if KeyOf(shops, p) == Some(k) then [p] else [] by {
        assert [p][1..] == [];
      }
    }
  }

  /** The groups are keyed by the shops the products found: each group
      holds, in order, exactly the products whose shop has its key, and
      its shop has that key; a key has a group exactly when some product
      found a shop with it. */
  lemma GroupedContents(shops: seq<Shop>, ps: seq<Product>)
    ensures forall k :: k in Grouped(shops, ps) <==> exists p :: p in ps && KeyOf(shops, p) == Some(k)
    ensures forall k :: k in Grouped(shops, ps) ==> Grouped(shops, ps)[k].products == Filter(ps, InGroup(shops, k))
    ensures forall k :: k in Grouped(shops, ps) ==> ShopKey(Grouped(shops, ps)[k].shop) == k
  {
    forall k
      ensures k in Grouped(shops, ps) <==> exists p :: p in ps && KeyOf(shops, p) == Some(k)
      ensures k in Grouped(shops, ps) ==>
        Grouped(shops, ps)[k].products == Filter(ps, InGroup(shops, k)) && ShopKey(Grouped(shops, ps)[k].shop) == k
    {
      GroupedAt(shops, ps, k);
      var kept := Filter(ps, InGroup(shops, k));
      if kept != [] {
        assert kept[0] in kept;
      }
    }
  }

  /** A product whose shop id matches no shop appears in no group. */
  lemma ShoplessProductDropped(shops: seq<Shop>, ps: seq<Product>, p: Product)
    requires FindShop(shops, p).None?
    ensures forall k :: k in Grouped(shops, ps) ==> p !in Grouped(shops, ps)[k].products
  {
    GroupedContents(shops, ps);
  }

  /** The page's search box and selects. */
  class ShopFilters {
    var query: string
    var category: string
    var location: string
    var rating: RatingFilter

    constructor ()
      ensures query == "" && category == "all" && location == "all" && rating == AnyRating
    {
      query := "";
      category := "all";
      location := "all";
      rating := AnyRating;
    }

    /** The shops the filters let through. */
    function Visible(shops: seq<Shop>): seq<Shop>
      reads this
    {
      FilteredShops(shops, query, category, location, rating)
    }

    /** `clearFilters()`: the three selects go back to their wildcards; the
        search text stays. */
    method ClearFilters()
      modifies this`category, this`location, this`rating
      ensures category == "all" && location == "all" && rating == AnyRating
      ensures query == old(query)
    {
      category := "all";
      location := "all";
      rating := AnyRating;
    }
  }
}
