/**
 * The shop listing: the query built from the sort choice and the in-stock
 * toggle, and the case-insensitive search over the fetched products.
 * Lower-casing is ASCII only.
 */
module Shop {
  import opened Types
  import Filtering

  // ---------------------------------------------------------------------
  // Search

  function LowerChar(c: char): char
  {
    if 'A' <= c <= 'Z' then (c as int + 32) as char else c
  }

  function Lower(s: string): (lower: string)
    ensures |lower| == |s|
    ensures forall i :: 0 <= i < |lower| ==> !('A' <= lower[i] <= 'Z')
    ensures forall i :: 0 <= i < |s| && 'A' <= s[i] <= 'Z' ==> lower[i] == (s[i] as int + 32) as char
    ensures forall i :: 0 <= i < |s| && !('A' <= s[i] <= 'Z') ==> lower[i] == s[i]
  {
    seq(|s|, i requires 0 <= i < |s| => LowerChar(s[i]))
  }

  lemma LowerIdempotent(s: string)
    ensures Lower(Lower(s)) == Lower(s)
  {
  }

  /** `text.includes(pattern)`. */
  predicate Contains(text: string, pattern: string)
  {
    pattern <= text || (text != [] && Contains(text[1..], pattern))
  }

  /**
   * The product's name, or its description when it has one, contains the
   * search. The empty search matches everything; a product without a
   * description is matched on its name alone.
   */
  function Matches(product: Product, search: string): (found: bool)
    ensures search == "" ==> found
    ensures product.description.None? ==> (found <==> Contains(Lower(product.name), Lower(search)))
    ensures product.description.Some? && Contains(Lower(product.description.value), Lower(search)) ==> found
  {
    Contains(Lower(product.name), Lower(search))
    || (product.description.Some? && Contains(Lower(product.description.value), Lower(search)))
  }

  /** `a` and `b` are the same text up to the case of ASCII letters. */
  predicate SameIgnoringCase(a: string, b: string)
  {
    |a| == |b| && forall i :: 0 <= i < |a| ==> LowerChar(a[i]) == LowerChar(b[i])
  }

  /** Searches that differ only in letter case find the same products. */
  lemma SearchIgnoresCase(product: Product, a: string, b: string)
    requires SameIgnoringCase(a, b)
    ensures Matches(product, a) <==> Matches(product, b)
  {
    assert Lower(a) == Lower(b);
  }

  /** In particular, a search and its lower-case form find the same products. */
  lemma SearchLowered(product: Product, search: string)
    ensures Matches(product, search) <==> Matches(product, Lower(search))
  {
    SearchIgnoresCase(product, search, Lower(search));
  }

  function Matching(search: string): Product -> bool
  {
    (p: Product) => Matches(p, search)
  }

  /** The products shown: those matching the search, in the fetched order. */
  function FilterProducts(products: seq<Product>, search: string): (shown: seq<Product>)
    ensures forall p :: multiset(shown)[p] == if Matches(p, search) then multiset(products)[p] else 0
    ensures Filtering.IsSubsequence(shown, products)
    ensures |shown| <= |products|
  {
    Filtering.FilterCount(products, Matching(search));
    Filtering.FilterIsSubsequence(products, Matching(search));
    Filtering.Filter(products, Matching(search))
  }

  /** An empty search shows every fetched product. */
  lemma EmptySearchShowsAll(products: seq<Product>)
    ensures FilterProducts(products, "") == products
  {
    forall i | 0 <= i < |products| ensures Matching("")(products[i]) {
      assert Lower("") == "";
      assert Contains(Lower(products[i].name), "");
    }
    Filtering.FilterKeepsAll(products, Matching(""));
  }

  // ---------------------------------------------------------------------
  // Query

  /** `a` sorts no later than `b` in ascending text order. */
  predicate TextLeq(a: string, b: string)
  {
    a == [] || (b != [] && (a[0] < b[0] || (a[0] == b[0] && TextLeq(a[1..], b[1..]))))
  }

  datatype Ordering = ByPrice(ascending: bool) | ByCreatedAt(ascending: bool)

  /** The query sent to the products table. */
  datatype ProductQuery = ProductQuery(inStockOnly: bool, order: Ordering)

  /** Whether a row may be returned by the query. */
  predicate Admits(query: ProductQuery, product: Product)
  {
    query.inStockOnly ==> product.inStock
  }

  /** Whether `a` may come before `b` in the query's result. */
  predicate InOrder(order: Ordering, a: Product, b: Product)
  {
    match order
    case ByPrice(ascending) => if ascending then a.price <= b.price else b.price <= a.price
    case ByCreatedAt(ascending) => if ascending then TextLeq(a.createdAt, b.createdAt) else TextLeq(b.createdAt, a.createdAt)
  }

  /** The sort menu: 'price-low' and 'price-high' by price, anything else newest first. */
  function SortOrder(sortBy: string): (order: Ordering)
    ensures sortBy == "price-low" ==> forall a, b :: InOrder(order, a, b) <==> a.price <= b.price
    ensures sortBy == "price-high" ==> forall a, b :: InOrder(order, a, b) <==> a.price >= b.price
    ensures sortBy != "price-low" && sortBy != "price-high" ==>
      forall a, b :: InOrder(order, a, b) <==> TextLeq(b.createdAt, a.createdAt)
  {
    match sortBy
    case "price-low" => ByPrice(true)
    case "price-high" => ByPrice(false)
    case _ => ByCreatedAt(false)
  }

  function BuildQuery(sortBy: string, showInStock: bool): (query: ProductQuery)
    ensures forall p :: Admits(query, p) <==> (showInStock ==> p.inStock)
    ensures query.order == SortOrder(sortBy)
  {
    var query := ProductQuery(false, SortOrder(sortBy));
    if showInStock then query.(inStockOnly := true) else query
  }

  /** The menu's three choices give three different orderings; other values act as 'newest'. */
  lemma SortChoices(sortBy: string, showInStock: bool)
    ensures SortOrder("newest") != SortOrder("price-low")
    ensures SortOrder("newest") != SortOrder("price-high")
    ensures SortOrder("price-low") != SortOrder("price-high")
    ensures sortBy != "price-low" && sortBy != "price-high" ==>
      BuildQuery(sortBy, showInStock) == BuildQuery("newest", showInStock)
  {
  }
}
