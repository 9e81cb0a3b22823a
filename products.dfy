/**
 * The products page of `src/pages/Products.tsx`: the `Product` record and
 * the search and category filter.
 */
module ProductsPage {
  import opened Strings
  import Lists

  datatype StockStatus = InStock | LowStock | OutOfStock

  /** A catalogue product; the price is display text such as "₹4,500". */
  datatype Product = Product(
    id: string, name: string, sku: string, category: string, price: string,
    stock: int, minStock: int, status: StockStatus, lastUpdated: string)

  const AllCategories := "All"

  /** The search box: name or SKU contain the query, ignoring case. */
  predicate MatchesSearch(p: Product, query: string)
  {
    IncludesIgnoringCase(p.name, query) || IncludesIgnoringCase(p.sku, query)
  }

  /** The category dropdown: "All", or exactly the product's category. */
  predicate MatchesCategory(p: Product, selected: string)
  {
    selected == AllCategories || p.category == selected
  }

  predicate ProductMatches(p: Product, query: string, selected: string)
  {
    MatchesSearch(p, query) && MatchesCategory(p, selected)
  }

  /**
   * `filteredProducts`: exactly the matching products, in their original
   * order; the "Showing n of m" count never exceeds the total.
   */
  function FilteredProducts(products: seq<Product>, query: string, selected: string): (r: seq<Product>)
    ensures |r| <= |products| && |r| == Lists.Count(products, (p: Product) => ProductMatches(p, query, selected))
    ensures forall i :: 0 <= i < |r| ==> ProductMatches(r[i], query, selected)
    ensures forall i :: 0 <= i < |products| && ProductMatches(products[i], query, selected) ==> products[i] in r
    ensures Lists.Subsequence(r, products)
  {
    Lists.Filter(products, p => ProductMatches(p, query, selected))
  }

  /** An empty search in "All" shows every product. */
  lemma EmptyFilterKeepsAll(products: seq<Product>)
    ensures FilteredProducts(products, "", AllCategories) == products
  {
    forall i | 0 <= i < |products|
      ensures ProductMatches(products[i], "", AllCategories)
    {
      EmptyQueryMatches(products[i].name);
    }
  }
}
