/**
 * The product list page: it loads the catalogue once, derives the category menu from it and shows
 * the products that match the search box and the selected category.
 */
module ProductsPage {
  import opened Optional
  import opened Seqs
  import opened Catalog

  /** `toLowerCase` on one character, restricted to ASCII letters. */
  function LowerChar(c: char): char
  {
    if 'A' <= c <= 'Z' then (c as int + 32) as char else c
  }

  function Lower(s: string): (r: string)
    ensures |r| == |s|
    ensures forall i :: 0 <= i < |s| ==> r[i] == LowerChar(s[i])
  {
    if s == [] then [] else [LowerChar(s[0])] + Lower(s[1..])
  }

  /** `needle` occurs in `hay` starting at position `i`. */
  predicate OccursAt(hay: string, needle: string, i: int)
  {
    0 <= i <= |hay| - |needle| && hay[i..i + |needle|] == needle
  }

  /** `hay.includes(needle)`: `needle` occurs in `hay` at some position. */
  function Includes(hay: string, needle: string): (r: bool)
    ensures r <==> exists i :: OccursAt(hay, needle, i)
    decreases |hay|
  {
    if |needle| <= |hay| && hay[..|needle|] == needle then
      assert OccursAt(hay, needle, 0);
      true
    else if hay == [] then
      assert forall i :: !OccursAt(hay, needle, i);
      false
    else
      var rest := Includes(hay[1..], needle);
      assert forall i :: OccursAt(hay[1..], needle, i) <==> OccursAt(hay, needle, i + 1);
      assert !OccursAt(hay, needle, 0);
      if rest then
        var i :| OccursAt(hay[1..], needle, i);
        assert OccursAt(hay, needle, i + 1);
        true
      else
        assert forall i :: OccursAt(hay, needle, i) ==> i == 0 || OccursAt(hay[1..], needle, i - 1);
        false
  }

  /** The search test: the lower-cased name or description contains the lower-cased query. */
  predicate MatchesSearch(p: Product, query: string)
  {
    Includes(Lower(p.name), Lower(query)) || Includes(Lower(p.description), Lower(query))
  }

  function SearchTest(query: string): Product -> bool
  {
    p => MatchesSearch(p, query)
  }

  /** The filter effect: the search filter when the query is non-empty, then the category filter unless 'all'. */
  function Filtered(products: seq<Product>, query: string, category: string): (r: seq<Product>)
    ensures |r| <= |products|
    ensures forall i :: 0 <= i < |r| ==> r[i] in products && Shown(r[i], query, category)
  {
    var bySearch := if query != "" then Filter(products, SearchTest(query)) else products;
    if category != "all" then Filter(bySearch, CategoryTest(category)) else bySearch
  }

  /** A product passes both filters. */
  predicate Shown(p: Product, query: string, category: string)
  {
    (query == "" || MatchesSearch(p, query)) && (category == "all" || p.category == category)
  }

  /** The two-step filter is one filter by `Shown`. */
  lemma {:induction false} FilteredIsFilter(products: seq<Product>, query: string, category: string)
    ensures Filtered(products, query, category) == Filter(products, p => Shown(p, query, category))
  {
    var shown := (p: Product) => Shown(p, query, category);
    if query != "" && category != "all" {
      FilterFilter(products, SearchTest(query), CategoryTest(category), shown);
    } else if query != "" {
      FilterSameTest(products, SearchTest(query), shown);
    } else if category != "all" {
      FilterSameTest(products, CategoryTest(category), shown);
    } else {
      FilterAllKept(products, shown);
    }
  }

  /**
   * The shown list keeps products of the catalogue in catalogue order; it holds every product that
   * passes both filters and only those.
   */
  lemma {:induction false} FilteredSpec(products: seq<Product>, query: string, category: string)
    ensures var r := Filtered(products, query, category);
      && IsSubseq(r, products)
      && (forall i :: 0 <= i < |r| ==> Shown(r[i], query, category))
      && (forall i :: 0 <= i < |products| && Shown(products[i], query, category) ==> products[i] in r)
  {
    FilteredIsFilter(products, query, category);
    FilterIsSubseq(products, p => Shown(p, query, category));
  }

  /** A non-empty query keeps only products whose lower-cased name or description contains it. */
  lemma {:induction false} SearchKeepsMatches(products: seq<Product>, query: string, category: string)
    requires query != ""
    ensures var r := Filtered(products, query, category);
      forall i :: 0 <= i < |r| ==>
        Includes(Lower(r[i].name), Lower(query)) || Includes(Lower(r[i].description), Lower(query))
  {
    FilteredSpec(products, query, category);
  }

  /** Filtering the shown list again with the same query and category changes nothing. */
  lemma {:induction false} FilteredIdempotent(products: seq<Product>, query: string, category: string)
    ensures Filtered(Filtered(products, query, category), query, category) == Filtered(products, query, category)
  {
    var shown := (p: Product) => Shown(p, query, category);
    FilteredIsFilter(products, query, category);
    FilteredIsFilter(Filtered(products, query, category), query, category);
    FilterIdempotent(products, shown);
  }

  /** `data.map(p => p.category)`. */
  function CategoriesOf(products: seq<Product>): (r: seq<string>)
    ensures |r| == |products|
    ensures forall i :: 0 <= i < |products| ==> r[i] == products[i].category
  {
    if products == [] then [] else [products[0].category] + CategoriesOf(products[1..])
  }

  /** `Array.from(new Set(s))`: each element once, at the place of its first occurrence. */
  function Distinct(s: seq<string>): (r: seq<string>)
    ensures forall x :: x in r <==> x in s
    decreases |s|
  {
    if s == [] then []
    else
      var seen := Distinct(s[..|s| - 1]);
      if s[|s| - 1] in seen then seen else seen + [s[|s| - 1]]
  }

  /** The position of the first occurrence of `x` in `s`. */
  function FirstIndex(s: seq<string>, x: string): (r: nat)
    requires x in s
    ensures r < |s| && s[r] == x
    ensures forall k :: 0 <= k < r ==> s[k] != x
  {
    if s[0] == x then 0 else 1 + FirstIndex(s[1..], x)
  }

  lemma {:induction false} FirstIndexInPrefix(s: seq<string>, n: nat, x: string)
    requires n <= |s| && x in s[..n]
    ensures FirstIndex(s, x) == FirstIndex(s[..n], x)
  {
    var k := FirstIndex(s[..n], x);
    var j := FirstIndex(s, x);
    assert s[k] == x;
    assert j <= k;
    assert s[..n][j] == x;
  }

  /**
   * The distinct values hold every value of `s` and nothing else, none twice, ordered by where each
   * first occurs in `s`.
   */
  lemma {:induction false} DistinctSpec(s: seq<string>)
    ensures var r := Distinct(s);
      && (forall x :: x in r <==> x in s)
      && (forall i, j :: 0 <= i < j < |r| ==> r[i] != r[j])
      && (forall i, j :: 0 <= i < j < |r| ==> FirstIndex(s, r[i]) < FirstIndex(s, r[j]))
    decreases |s|
  {
    if s != [] {
      var n := |s| - 1;
      var prefix := s[..n];
      var last := s[n];
      DistinctSpec(prefix);
      var seen := Distinct(prefix);
      assert s == prefix + [last];
      forall x | x in prefix ensures FirstIndex(s, x) == FirstIndex(prefix, x) {
        FirstIndexInPrefix(s, n, x);
      }
      if last !in seen {
        assert FirstIndex(s, last) == n;
      }
    }
  }

  class Page {
    var products: seq<Product>
    var filteredProducts: seq<Product>
    var loading: bool
    var searchQuery: string
    var selectedCategory: string
    var categories: seq<string>

    /** After every event the shown list and the category menu follow from the state. */
    ghost predicate Valid()
      reads this
    {
      && filteredProducts == Filtered(products, searchQuery, selectedCategory)
      && categories == Distinct(CategoriesOf(products))
    }

    constructor ()
      ensures Valid()
      ensures products == [] && loading && searchQuery == "" && selectedCategory == "all"
    {
      products := [];
      filteredProducts := [];
      loading := true;
      searchQuery := "";
      selectedCategory := "all";
      categories := [];
    }

    /** The filter effect, run whenever the query, the category or the catalogue changes. */
    method ApplyFilters()
      modifies this
      ensures filteredProducts == Filtered(products, searchQuery, selectedCategory)
      ensures products == old(products) && searchQuery == old(searchQuery)
      ensures selectedCategory == old(selectedCategory) && categories == old(categories) && loading == old(loading)
    {
      var filtered := products;
      if searchQuery != "" {
        filtered := Filter(filtered, SearchTest(searchQuery));
      }
      if selectedCategory != "all" {
        filtered := Filter(filtered, CategoryTest(selectedCategory));
      }
      filteredProducts := filtered;
    }

    /** `fetchProducts`: on a successful load, store the catalogue and its distinct categories. */
    method FetchProducts(data: Option<seq<Product>>)
      requires Valid()
      modifies this
      ensures Valid() && !loading
      ensures products == if data.Some? then data.value else old(products)
      ensures searchQuery == old(searchQuery) && selectedCategory == old(selectedCategory)
    {
      if data.Some? {
        products := data.value;
        filteredProducts := data.value;
        categories := Distinct(CategoriesOf(data.value));
        ApplyFilters();
      }
      loading := false;
    }

    method SetSearchQuery(query: string)
      requires Valid()
      modifies this
      ensures Valid() && searchQuery == query
      ensures products == old(products) && selectedCategory == old(selectedCategory) && loading == old(loading)
    {
      searchQuery := query;
      ApplyFilters();
    }

    method SetSelectedCategory(category: string)
      requires Valid()
      modifies this
      ensures Valid() && selectedCategory == category
      ensures products == old(products) && searchQuery == old(searchQuery) && loading == old(loading)
    {
      selectedCategory := category;
      ApplyFilters();
    }

    /** "Clear Filters": no query, every category, so the whole catalogue is shown. */
    method ClearFilters()
      requires Valid()
      modifies this
      ensures Valid() && searchQuery == "" && selectedCategory == "all"
      ensures filteredProducts == products
      ensures products == old(products) && loading == old(loading)
    {
      searchQuery := "";
      selectedCategory := "all";
      ApplyFilters();
    }
  }
}
