/** The search page (front/app/search/page.tsx): a query sent to the search
    endpoint, whose malls, shops and products are shown, the products
    further narrowed by a price range, category check boxes and a
    discount switch. The request is a parameter: its outcome is given to
    the method that runs the search. */
module SearchPage {
  import opened Common
  import opened Lists
  import opened Text

  datatype Mall = Mall(mongoId: string, name: string, description: string)
  datatype Shop = Shop(mongoId: string, name: string, description: string)
  /** A product; a missing tag list is the empty one, which `some` treats
      alike. */
  datatype Product = Product(mongoId: string, name: string, description: string, price: int,
                             originalPrice: Option<int>, tags: seq<string>)

  datatype Results = Results(malls: seq<Mall>, shops: seq<Shop>, products: seq<Product>)

  const NoResults := Results([], [], [])
  const SearchFailed := "Impossible d'effectuer la recherche"

  /** How the request to the search endpoint ended. */
  datatype Fetch = Fetched(data: Results) | Failed

  /** The category check boxes offered. */
  const CategoryOptions := ["Electronics", "Fashion", "Home", "Sports", "Books", "Beauty"]

  /** The three tests of `filteredProducts`: the price lies in the range,
      both ends included; no category is ticked or some tag is ticked; the
      discount switch is off or there is an original price (non-zero)
      above the price. */
  predicate ProductPasses(p: Product, low: int, high: int, selected: seq<string>, discountedOnly: bool) {
    && low <= p.price <= high
    && (selected == [] || exists i :: 0 <= i < |p.tags| && p.tags[i] in selected)
    && (!discountedOnly || (p.originalPrice.Some? && p.originalPrice.value != 0 && p.originalPrice.value > p.price))
  }

  function FilterProducts(products: seq<Product>, low: int, high: int, selected: seq<string>,
                          discountedOnly: bool): (r: seq<Product>)
    ensures IsSubsequence(r, products)
    ensures forall p :: p in r <==> p in products && ProductPasses(p, low, high, selected, discountedOnly)
    ensures forall p {:trigger multiset(r)[p]} :: multiset(r)[p] == if ProductPasses(p, low, high, selected, discountedOnly) then multiset(products)[p] else 0
  {
    var keep := (p: Product) => ProductPasses(p, low, high, selected, discountedOnly);
    FilterIsSubsequence(products, keep);
    FilterCount(products, keep);
    Filter(products, keep)
  }

  class SearchView {
    var query: string
    var priceLow: int
    var priceHigh: int
    var selectedCategories: seq<string>
    var discountedOnly: bool
    var sortBy: string
    var isLoading: bool
    var error: Option<string>
    var results: Results

    /** The first render: the query is the `q` parameter or empty, and the
        discount switch is on when the `discounted` parameter is "true". */
    constructor (q: Option<string>, discounted: Option<string>)
      ensures query == q.GetOr("") && discountedOnly == (discounted == Some("true"))
      ensures priceLow == 0 && priceHigh == 1000 && selectedCategories == [] && sortBy == "relevance"
      ensures !isLoading && error == None && results == NoResults
    {
      query := q.GetOr("");
      discountedOnly := discounted == Some("true");
      priceLow := 0;
      priceHigh := 1000;
      selectedCategories := [];
      sortBy := "relevance";
      isLoading := false;
      error := None;
      results := NoResults;
    }

    /** `filteredProducts` */
    function FilteredProducts(): (r: seq<Product>)
      reads this
      ensures IsSubsequence(r, results.products)
      ensures forall p :: p in r <==> p in results.products && ProductPasses(p, priceLow, priceHigh, selectedCategories, discountedOnly)
      ensures forall p {:trigger multiset(r)[p]} :: multiset(r)[p] == if ProductPasses(p, priceLow, priceHigh, selectedCategories, discountedOnly) then multiset(results.products)[p] else 0
    {
      FilterProducts(results.products, priceLow, priceHigh, selectedCategories, discountedOnly)
    }

    /** `totalResults`: the malls and shops found and the products the
        filters let through. */
    function TotalResults(): (n: nat)
      reads this
      ensures |results.malls| + |results.shops| <= n <= |results.malls| + |results.shops| + |results.products|
    {
      |results.malls| + |results.shops| + |FilteredProducts()|
    }

    /** The effect run when the query changes: a blank or whitespace-only
        query empties the results without any request and leaves the error
        and the loading flag alone; otherwise the results are what the
        request returned, or nothing with an error message when it failed,
        and loading is over. */
    method Search(outcome: Fetch)
      modifies this`results, this`error, this`isLoading
      ensures AllSpace(query) ==>
        && results == NoResults && TotalResults() == 0
        && error == old(error) && isLoading == old(isLoading)
      ensures !AllSpace(query) ==>
        && !isLoading
        && (outcome.Fetched? ==> results == outcome.data && error == None)
        && (outcome.Failed? ==> results == NoResults && error == Some(SearchFailed))
    {
      TrimEmptyIff(query);
      if Trim(query) == "" {
        results := NoResults;
        assert FilteredProducts() == [];
        return;
      }
      isLoading := true;
      error := None;
      if outcome.Fetched? {
        results := outcome.data;
      } else {
        error := Some(SearchFailed);
        results := NoResults;
      }
      isLoading := false;
    }

    /** `handleCategoryToggle(category)`: a ticked category is unticked,
        any other is appended; no other category changes. */
    method ToggleCategory(category: string)
      modifies this`selectedCategories
      ensures selectedCategories == Toggle(old(selectedCategories), category)
      ensures category in selectedCategories <==> category !in old(selectedCategories)
      ensures forall c :: c != category ==> (c in selectedCategories <==> c in old(selectedCategories))
    {
      selectedCategories := Toggle(selectedCategories, category);
    }

    /** `clearFilters()`: the price range back to 0..1000, no category, the
        discount switch off and the "relevance" order; then only the price
        range decides which products are shown. */
    method ClearFilters()
      modifies this`priceLow, this`priceHigh, this`selectedCategories, this`discountedOnly, this`sortBy
      ensures priceLow == 0 && priceHigh == 1000 && selectedCategories == [] && !discountedOnly
      ensures sortBy == "relevance"
      ensures forall p :: p in FilteredProducts() <==> p in results.products && 0 <= p.price <= 1000
    {
      priceLow := 0;
      priceHigh := 1000;
      selectedCategories := [];
      discountedOnly := false;
      sortBy := "relevance";
    }
  }
}
