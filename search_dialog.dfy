/**
 * The storefront search dialog: a blank query clears the results without a
 * lookup; otherwise at most five matching products and three matching
 * categories are fetched and shown products first, each tagged with its
 * kind; choosing a result routes by that tag, closes the dialog and clears
 * the query.
 */
module SearchDialog {
  import opened Js
  import opened JsArray
  import opened Catalog
  import opened Postgrest

  const ProductLimit: nat := 5
  const CategoryLimit: nat := 3

  /** A merged result: a product or a category row, tagged `type: "product"` or `type: "category"`. */
  datatype SearchResult = ProductHit(product: Product) | CategoryHit(category: Category)

  /** `!query.trim()`. */
  predicate IsBlank(query: string)
  {
    Trim(query) == ""
  }

  /** A query is blank exactly when every one of its characters is white space (the empty query included). */
  lemma BlankIffWhitespace(query: string)
    ensures IsBlank(query) <==> forall i :: 0 <= i < |query| ==> IsWhitespace(query[i])
  {
    TrimBlank(query);
  }

  /** The product filter `name_ar.ilike.%q%,name_en.ilike.%q%,brand.ilike.%q%`. */
  predicate ProductMatches(p: Product, q: string)
  {
    ILikeContains(p.name_ar, q) || ILikeContains(p.name_en, q) || ILikeContains(p.brand, q)
  }

  /** The category filter `name_ar.ilike.%q%,name_en.ilike.%q%`. */
  predicate CategoryMatches(c: Category, q: string)
  {
    ILikeContains(c.name_ar, q) || ILikeContains(c.name_en, q)
  }

  /** The product rows a plain query matches, in table order. */
  function ProductHits(products: seq<Product>, q: string): seq<Product>
  {
    Filter(products, (p: Product) => ProductMatches(p, q))
  }

  /** The category rows a plain query matches, in table order. */
  function CategoryHits(categories: seq<Category>, q: string): seq<Category>
  {
    Filter(categories, (c: Category) => CategoryMatches(c, q))
  }

  /**
   * What the product lookup returns for a plain query: the first five
   * matching rows in table order, or all of them when there are fewer.
   */
  function ProductLookup(products: seq<Product>, q: string): (r: seq<Product>)
    requires PlainQuery(q)
    ensures |r| <= ProductLimit
    ensures forall i :: 0 <= i < |r| ==> r[i] in products && ProductMatches(r[i], q)
    ensures var hits := ProductHits(products, q);
            |r| == (if |hits| < ProductLimit then |hits| else ProductLimit) &&
            forall i :: 0 <= i < |r| ==> r[i] == hits[i]
  {
    var hits := ProductHits(products, q);
    assert forall i :: 0 <= i < |Limit(hits, ProductLimit)| ==> Limit(hits, ProductLimit)[i] == hits[i];
    Limit(hits, ProductLimit)
  }

  /**
   * What the category lookup returns for a plain query: the first three
   * matching rows in table order, or all of them when there are fewer.
   */
  function CategoryLookup(categories: seq<Category>, q: string): (r: seq<Category>)
    requires PlainQuery(q)
    ensures |r| <= CategoryLimit
    ensures forall i :: 0 <= i < |r| ==> r[i] in categories && CategoryMatches(r[i], q)
    ensures var hits := CategoryHits(categories, q);
            |r| == (if |hits| < CategoryLimit then |hits| else CategoryLimit) &&
            forall i :: 0 <= i < |r| ==> r[i] == hits[i]
  {
    var hits := CategoryHits(categories, q);
    assert forall i :: 0 <= i < |Limit(hits, CategoryLimit)| ==> Limit(hits, CategoryLimit)[i] == hits[i];
    Limit(hits, CategoryLimit)
  }

  /** When at most five products match, the lookup returns every matching product of the table. */
  lemma FewProductMatchesAllFound(products: seq<Product>, q: string)
    requires PlainQuery(q)
    requires |ProductHits(products, q)| <= ProductLimit
    ensures forall i :: 0 <= i < |products| && ProductMatches(products[i], q) ==> products[i] in ProductLookup(products, q)
  {
    assert ProductLookup(products, q) == ProductHits(products, q);
  }

  /** When at most three categories match, the lookup returns every matching category of the table. */
  lemma FewCategoryMatchesAllFound(categories: seq<Category>, q: string)
    requires PlainQuery(q)
    requires |CategoryHits(categories, q)| <= CategoryLimit
    ensures forall i :: 0 <= i < |categories| && CategoryMatches(categories[i], q) ==> categories[i] in CategoryLookup(categories, q)
  {
    assert CategoryLookup(categories, q) == CategoryHits(categories, q);
  }

  /** Whenever some product matches, the lookup finds one: a search never misses every match. */
  lemma SomeProductMatchFound(products: seq<Product>, q: string, k: int)
    requires PlainQuery(q)
    requires 0 <= k < |products| && ProductMatches(products[k], q)
    ensures ProductLookup(products, q) != []
  {
    assert products[k] in ProductHits(products, q);
  }

  /**
   * The merged list: the product rows tagged as products, then the category
   * rows tagged as categories, each group in returned order; a missing
   * result set (`data` null) counts as empty.
   */
  function Combine(products: Option<seq<Product>>, categories: Option<seq<Category>>): (r: seq<SearchResult>)
    ensures var ps := if products.Some? then products.value else [];
            var cs := if categories.Some? then categories.value else [];
            |r| == |ps| + |cs| &&
            (forall i :: 0 <= i < |ps| ==> r[i] == ProductHit(ps[i])) &&
            (forall j :: 0 <= j < |cs| ==> r[|ps| + j] == CategoryHit(cs[j]))
  {
    var ps := if products.Some? then products.value else [];
    var cs := if categories.Some? then categories.value else [];
    seq(|ps|, i requires 0 <= i < |ps| => ProductHit(ps[i])) +
    seq(|cs|, j requires 0 <= j < |cs| => CategoryHit(cs[j]))
  }

  /**
   * A search against the two tables shows at most eight results, the product
   * hits first; every product shown matches the query on a name or the brand,
   * every category shown on a name.
   */
  lemma SearchResultsBounded(products: seq<Product>, categories: seq<Category>, q: string)
    requires PlainQuery(q)
    ensures var r := Combine(Some(ProductLookup(products, q)), Some(CategoryLookup(categories, q)));
            |r| <= ProductLimit + CategoryLimit &&
            (forall i :: 0 <= i < |r| && r[i].ProductHit? ==>
               r[i].product in products && ProductMatches(r[i].product, q)) &&
            (forall i :: 0 <= i < |r| && r[i].CategoryHit? ==>
               r[i].category in categories && CategoryMatches(r[i].category, q)) &&
            (forall i, j :: 0 <= i < j < |r| && r[j].ProductHit? ==> r[i].ProductHit?)
  {
    var ps := ProductLookup(products, q);
    var cs := CategoryLookup(categories, q);
    var r := Combine(Some(ps), Some(cs));
    forall i | 0 <= i < |r|
      ensures r[i].ProductHit? <==> i < |ps|
      ensures r[i].ProductHit? ==> r[i].product == ps[i]
      ensures r[i].CategoryHit? ==> r[i].category == cs[i - |ps|]
    {
      if i >= |ps| {
        assert r[|ps| + (i - |ps|)] == CategoryHit(cs[i - |ps|]);
      }
    }
  }

  /** Case folding is idempotent. */
  lemma {:induction false} FoldTwice(s: string)
    ensures Fold(Fold(s)) == Fold(s)
  {
    if s != [] {
      FoldTwice(s[1..]);
      assert Fold(s)[1..] == Fold(s[1..]);
    }
  }

  /** The match ignores the case of the query's ASCII letters. */
  lemma MatchIgnoresQueryCase(column: string, q: string)
    requires PlainQuery(q)
    ensures ILikeContains(column, q) <==> ILikeContains(column, Fold(q))
  {
    FoldTwice(q);
  }

  // ---------------------------------------------------------------------
  // Routing

  /** `${result.id}` for a product row: the decimal id, or "undefined". */
  function IdText(id: Option<int>): string
  {
    if id.Some? then NumberToString(Int(id.value)) else "undefined"
  }

  const CategoryPrefix: string := "/products/"
  const ProductPrefix: string := "/products/product/"

  /** Where `handleResultClick` sends the browser. */
  function ResultRoute(result: SearchResult): (route: string)
    ensures result.CategoryHit? ==> route == CategoryPrefix + result.category.slug
    ensures result.ProductHit? ==> route == ProductPrefix + IdText(result.product.id)
  {
    match result
    case CategoryHit(c) => CategoryPrefix + c.slug
    case ProductHit(p) => ProductPrefix + IdText(p.id)
  }

  /**
   * A category whose slug has no `/` never routes to a product page: the
   * category and product route spaces only meet for slugs starting with
   * "product/".
   */
  lemma CategoryRouteIsNotProductRoute(c: Category, p: Product)
    requires forall i :: 0 <= i < |c.slug| ==> c.slug[i] != '/'
    ensures ResultRoute(CategoryHit(c)) != ResultRoute(ProductHit(p))
  {
    var a := ResultRoute(CategoryHit(c));
    var b := ResultRoute(ProductHit(p));
    var k := |ProductPrefix| - 1;
    assert b[k] == '/';
    if k < |a| {
      assert a[k] == c.slug[k - |CategoryPrefix|];
    }
  }

  /** Two product rows with different ids route to different pages. */
  lemma ProductRoutesDistinct(p: Product, q: Product)
    requires p.id.Some? && q.id.Some? && p.id != q.id
    ensures ResultRoute(ProductHit(p)) != ResultRoute(ProductHit(q))
  {
    ParseIntOfToString(Int(p.id.value));
    ParseIntOfToString(Int(q.id.value));
    assert IdText(p.id) == ResultRoute(ProductHit(p))[|ProductPrefix|..];
    assert IdText(q.id) == ResultRoute(ProductHit(q))[|ProductPrefix|..];
  }

  class Dialog {
    var searchQuery: string
    var results: seq<SearchResult>
    var isLoading: bool
    /** Whether the dialog is open, as its parent last set it through `onOpenChange`. */
    var open: bool

    constructor (open: bool)
      ensures searchQuery == "" && results == [] && !isLoading && this.open == open
    {
      searchQuery, results, isLoading := "", [], false;
      this.open := open;
    }

    /**
     * `performSearch(query)` given the two lookups' `data`. Returns the text
     * the lookups are sent with, or `None` when the query is blank and no
     * lookup is made. The text sent is the query as typed, not trimmed.
     */
    method PerformSearch(query: string, productRows: Option<seq<Product>>, categoryRows: Option<seq<Category>>)
      returns (sent: Option<string>)
      modifies this`results, this`isLoading
      ensures IsBlank(query) ==> sent == None && results == [] && isLoading == old(isLoading)
      ensures !IsBlank(query) ==> sent == Some(query) && results == Combine(productRows, categoryRows) && !isLoading
    {
      if Trim(query) == "" {
        results := [];
        return None;
      }
      isLoading := true;
      sent := Some(query);
      results := Combine(productRows, categoryRows);
      isLoading := false;
    }

    /** `handleResultClick`: returns the route pushed; the dialog closes and the query is cleared. */
    method HandleResultClick(result: SearchResult) returns (route: string)
      modifies this`open, this`searchQuery
      ensures route == ResultRoute(result) && !open && searchQuery == ""
    {
      if result.CategoryHit? {
        route := CategoryPrefix + result.category.slug;
      } else {
        route := ProductPrefix + IdText(result.product.id);
      }
      open := false;
      searchQuery := "";
    }
  }
}
