/** The marketplace's product filter: text search, category and price range. */
module Marketplace {
  import opened Wrappers
  import opened Text
  import Lists

  datatype Product = Product(id: int, name: string, description: string, category: string, price: real)

  /** A price-range input: left empty, or what `parseFloat` made of the text
      (a number, or NaN, which fails every comparison). */
  datatype Bound = NoBound | Parsed(value: real) | NotANumber

  predicate MatchesSearch(p: Product, searchTerm: string) {
    Contains(Lower(p.name), Lower(searchTerm)) || Contains(Lower(p.description), Lower(searchTerm))
  }

  predicate MatchesCategory(p: Product, selectedCategory: string) {
    selectedCategory == "all" || p.category == selectedCategory
  }

  predicate AboveMin(p: Product, min: Bound) {
    match min
    case NoBound => true
    case Parsed(v) => p.price >= v
    case NotANumber => false
  }

  predicate BelowMax(p: Product, max: Bound) {
    match max
    case NoBound => true
    case Parsed(v) => p.price <= v
    case NotANumber => false
  }

  predicate Keep(p: Product, searchTerm: string, selectedCategory: string, min: Bound, max: Bound) {
    MatchesSearch(p, searchTerm) && MatchesCategory(p, selectedCategory) && AboveMin(p, min) && BelowMax(p, max)
  }

  /** `filteredProducts`: nothing while the product list is not an array, otherwise
      the products passing all four tests, in order. */
  function FilteredProducts(products: Option<seq<Product>>, searchTerm: string, selectedCategory: string, min: Bound, max: Bound): (r: seq<Product>)
    ensures products.None? ==> r == []
    ensures products.Some? ==> Lists.Subsequence(r, products.value)
    ensures forall p :: p in r <==> products.Some? && p in products.value && Keep(p, searchTerm, selectedCategory, min, max)
    // a bound that is not a number, or a minimum above the maximum, hides everything
    ensures min.NotANumber? || max.NotANumber? ==> r == []
    ensures min.Parsed? && max.Parsed? && min.value > max.value ==> r == []
  {
    match products
    case None => []
    case Some(l) =>
      var keep := (p: Product) => Keep(p, searchTerm, selectedCategory, min, max);
      Lists.FilterSubsequence(l, keep);
      var r := Lists.Filter(l, keep);
      assert r != [] ==> r[0] in r;
      r
  }

  /** The initial filters (no search, category `all`, empty range) show every product. */
  lemma DefaultFiltersShowAll(l: seq<Product>)
    ensures FilteredProducts(Some(l), "", "all", NoBound, NoBound) == l
  {
    var keep := (p: Product) => Keep(p, "", "all", NoBound, NoBound);
    forall p | p in l
      ensures keep(p)
    {
      assert "" <= Lower(p.name);
    }
    Lists.FilterAll(l, keep);
  }
}
