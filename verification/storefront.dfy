/** The web storefront's home page (web/src/app/page.tsx): the category list
    offered in the filter and the products matching the search box and the
    selected category. */
module Storefront {
  import opened Seqs
  import opened Text
  import opened Catalog

  const AllCategories := "all"

  /** `product.name.toLowerCase().includes(searchTerm.toLowerCase())` */
  predicate NameMatches(p: Product, searchTerm: string) {
    Contains(ToLower(p.name), ToLower(searchTerm))
  }

  /** The search ignores the case of the term and of the product name: a
      lower-cased term, or a lower-cased name, matches exactly as before. */
  lemma SearchIgnoresCase(p: Product, searchTerm: string)
    ensures NameMatches(p, searchTerm) <==> NameMatches(p, ToLower(searchTerm))
    ensures NameMatches(p, searchTerm) <==> NameMatches(p.(name := ToLower(p.name)), searchTerm)
  {
    ToLowerIdempotent(searchTerm);
    ToLowerIdempotent(p.name);
  }

  /** `category === 'all' ? true : product.category === category` */
  predicate CategoryMatches(p: Product, category: string) {
    category == AllCategories || p.category == category
  }

  /** The two chained filters of `filteredProducts`. */
  function FilteredProducts(catalog: seq<Product>, searchTerm: string, category: string): seq<Product> {
    Filter(Filter(catalog, (p: Product) => NameMatches(p, searchTerm)),
           (p: Product) => CategoryMatches(p, category))
  }

  /** The result lists catalog products in catalog order, each matching both
      the search term and the category, and misses none that does. */
  lemma FilteredProductsCorrect(catalog: seq<Product>, searchTerm: string, category: string)
    ensures IsSubsequence(FilteredProducts(catalog, searchTerm, category), catalog)
    ensures forall p :: p in FilteredProducts(catalog, searchTerm, category) ==>
      NameMatches(p, searchTerm) && CategoryMatches(p, category)
    ensures forall p :: p in catalog && NameMatches(p, searchTerm) && CategoryMatches(p, category) ==>
      p in FilteredProducts(catalog, searchTerm, category)
    ensures multiset(FilteredProducts(catalog, searchTerm, category)) <= multiset(catalog)
    ensures forall p :: p in catalog && NameMatches(p, searchTerm) && CategoryMatches(p, category) ==>
      multiset(FilteredProducts(catalog, searchTerm, category))[p] == multiset(catalog)[p]
  {
    var byName := Filter(catalog, (p: Product) => NameMatches(p, searchTerm));
    FilterIsSubsequence(catalog, (p: Product) => NameMatches(p, searchTerm));
    FilterIsSubsequence(byName, (p: Product) => CategoryMatches(p, category));
    FilterCounts(catalog, (p: Product) => NameMatches(p, searchTerm));
    FilterCounts(byName, (p: Product) => CategoryMatches(p, category));
    SubsequenceTransitive(FilteredProducts(catalog, searchTerm, category), byName, catalog);
  }

  /** With an empty search box and category 'all' the whole catalog shows. */
  lemma NoFilterShowsAll(catalog: seq<Product>)
    ensures FilteredProducts(catalog, "", AllCategories) == catalog
  {
    forall i | 0 <= i < |catalog|
      ensures NameMatches(catalog[i], "")
    {
      ContainsEmpty(ToLower(catalog[i].name));
    }
    FilterKeepsAll(catalog, (p: Product) => NameMatches(p, ""));
    FilterKeepsAll(catalog, (p: Product) => CategoryMatches(p, AllCategories));
  }

  /** `['all', ...Array.from(new Set(allProducts.map(p => p.category)))]` */
  function CategoryOptions(catalog: seq<Product>): seq<string> {
    [AllCategories] + Distinct(CategoryNames(catalog))
  }

  /** The options are 'all' followed by every catalog category exactly once,
      in order of first appearance. */
  lemma CategoryOptionsCorrect(catalog: seq<Product>)
    ensures CategoryOptions(catalog)[0] == AllCategories
    ensures NoDuplicates(CategoryOptions(catalog)[1..])
    ensures forall c :: c in CategoryOptions(catalog)[1..] <==> exists i :: 0 <= i < |catalog| && catalog[i].category == c
    ensures forall i, j :: 1 <= i < j < |CategoryOptions(catalog)| ==>
      FirstIndex(CategoryNames(catalog), CategoryOptions(catalog)[i]) <
      FirstIndex(CategoryNames(catalog), CategoryOptions(catalog)[j])
  {
    var names := CategoryNames(catalog);
    var options := CategoryOptions(catalog);
    assert options[1..] == Distinct(names);
    DistinctFirstAppearanceOrder(names);
    DistinctElements(names);
    forall c
      ensures c in options[1..] <==> exists i :: 0 <= i < |catalog| && catalog[i].category == c
    {
      if c in names {
        var i :| 0 <= i < |names| && names[i] == c;
        assert catalog[i].category == c;
      }
    }
    forall i, j | 1 <= i < j < |options|
      ensures FirstIndex(names, options[i]) < FirstIndex(names, options[j])
    {
      assert options[i] == Distinct(names)[i - 1] && options[j] == Distinct(names)[j - 1];
    }
  }
}
