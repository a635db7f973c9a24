/**
 * The catalogue queries of server/src/graphql/resolvers.js: `products` (filter by
 * category, tag and search text, sort, then paginate), `product`, `categories` and
 * `category`. Text comparisons lower-case both sides.
 */
module Catalog {
  import opened Wrappers
  import opened Collections
  import opened Sorting
  import opened StoreData

  /** The arguments of the `products` query; an argument the caller leaves out is None. */
  datatype ProductsArgs = ProductsArgs(
    category: Option<string>, tag: Option<string>, search: Option<string>,
    sortBy: Option<string>, limit: Option<int>, offset: Option<int>)

  const DefaultLimit := 10

  /** A JavaScript truthiness test on an optional string: present and not empty. */
  predicate Given(s: Option<string>)
  {
    s.Some? && s.value != ""
  }

  predicate InCategory(p: Product, category: string)
  {
    EqualsIgnoreCase(p.category.name, category)
  }

  predicate HasTag(p: Product, tag: string)
  {
    exists k :: 0 <= k < |p.tags| && EqualsIgnoreCase(p.tags[k], tag)
  }

  predicate MatchesSearch(p: Product, search: string)
  {
    Contains(Lower(p.name), Lower(search)) || Contains(Lower(p.description), Lower(search))
  }

  /** All three filters at once: each one given constrains, each one left out passes everything. */
  predicate Matches(p: Product, args: ProductsArgs)
  {
    (Given(args.category) ==> InCategory(p, args.category.value)) &&
    (Given(args.tag) ==> HasTag(p, args.tag.value)) &&
    (Given(args.search) ==> MatchesSearch(p, args.search.value))
  }

  function ByCategory(category: string): Product -> bool
  {
    (p: Product) => InCategory(p, category)
  }

  function ByTag(tag: string): Product -> bool
  {
    (p: Product) => HasTag(p, tag)
  }

  function BySearch(search: string): Product -> bool
  {
    (p: Product) => MatchesSearch(p, search)
  }

  function ByArgs(args: ProductsArgs): Product -> bool
  {
    (p: Product) => Matches(p, args)
  }

  /** Each of the three filters, applied only when its argument is given. */
  function CategoryStep(products: seq<Product>, args: ProductsArgs): seq<Product>
  {
    if Given(args.category) then Filter(products, ByCategory(args.category.value)) else products
  }

  function TagStep(products: seq<Product>, args: ProductsArgs): seq<Product>
  {
    if Given(args.tag) then Filter(products, ByTag(args.tag.value)) else products
  }

  function SearchStep(products: seq<Product>, args: ProductsArgs): seq<Product>
  {
    if Given(args.search) then Filter(products, BySearch(args.search.value)) else products
  }

  /** The three filters of `products`, applied one after the other as the resolver does. */
  function Filtered(products: seq<Product>, args: ProductsArgs): seq<Product>
  {
    SearchStep(TagStep(CategoryStep(products, args), args), args)
  }

  /** Filtering three times is filtering once by the conjunction of the three tests. */
  lemma FilteredIsOneFilter(products: seq<Product>, args: ProductsArgs)
    ensures Filtered(products, args) == Filter(products, ByArgs(args))
  {
    var c := (p: Product) => Given(args.category) ==> InCategory(p, args.category.value);
    var t := (p: Product) => Given(args.tag) ==> HasTag(p, args.tag.value);
    var s := (p: Product) => Given(args.search) ==> MatchesSearch(p, args.search.value);
    var ct := (p: Product) => c(p) && t(p);

    var byCategory := if Given(args.category) then Filter(products, ByCategory(args.category.value)) else products;
    if Given(args.category) {
      FilterExtensional(products, ByCategory(args.category.value), c);
    } else {
      FilterAll(products, c);
    }
    var byTag := if Given(args.tag) then Filter(byCategory, ByTag(args.tag.value)) else byCategory;
    if Given(args.tag) {
      FilterExtensional(byCategory, ByTag(args.tag.value), t);
    } else {
      FilterAll(byCategory, t);
    }
    FilterFilter(products, c, t, ct);
    assert byTag == Filter(products, ct);
    if Given(args.search) {
      FilterExtensional(byTag, BySearch(args.search.value), s);
    } else {
      FilterAll(byTag, s);
    }
    FilterFilter(products, ct, s, ByArgs(args));
  }

  /**
   * The comparator a `sortBy` value selects, as the key it sorts non-decreasingly by:
   * cheapest first, dearest first, best rated first, most recent first. Any other value
   * leaves the order alone.
   */
  function SortKey(sortBy: Option<string>): Option<Product -> int>
  {
    if !Given(sortBy) then None
    else if sortBy.value == "price_asc" then Some(Cheapest)
    else if sortBy.value == "price_desc" then Some(Dearest)
    else if sortBy.value == "rating" then Some(BestRated)
    else if sortBy.value == "newest" then Some(Newest)
    else None
  }

  function Cheapest(p: Product): int { p.price }
  function Dearest(p: Product): int { -p.price }
  function BestRated(p: Product): int { -p.rating }
  function Newest(p: Product): int { -p.createdAt }

  /** The filtered products in the order the query sorts them into. */
  function Ordered(products: seq<Product>, args: ProductsArgs): seq<Product>
  {
    match SortKey(args.sortBy)
    case None => Filtered(products, args)
    case Some(key) => SortBy(Filtered(products, args), key)
  }

  function Limit(args: ProductsArgs): int
  {
    if args.limit.Some? then args.limit.value else DefaultLimit
  }

  function Offset(args: ProductsArgs): int
  {
    if args.offset.Some? then args.offset.value else 0
  }

  /** The `products` query: filter, sort, then `slice(offset, offset + limit)`. */
  function Query(products: seq<Product>, args: ProductsArgs): seq<Product>
  {
    JsSlice(Ordered(products, args), Offset(args), Offset(args) + Limit(args))
  }

  /** The sorted list is a permutation of the filtered one, so it holds exactly the matching products. */
  lemma OrderedContents(products: seq<Product>, args: ProductsArgs)
    ensures multiset(Ordered(products, args)) == multiset(Filter(products, ByArgs(args)))
  {
    FilteredIsOneFilter(products, args);
    match SortKey(args.sortBy)
    case None =>
    case Some(key) => SortByPermutes(Filtered(products, args), key);
  }

  /** Every product the query returns is in the catalogue and passes every filter given. */
  lemma QueryMatches(products: seq<Product>, args: ProductsArgs)
    ensures forall k :: 0 <= k < |Query(products, args)| ==>
      Query(products, args)[k] in products && Matches(Query(products, args)[k], args)
  {
    var o := Ordered(products, args);
    var f := Filter(products, ByArgs(args));
    OrderedContents(products, args);
    var r := Query(products, args);
    forall k | 0 <= k < |r|
      ensures r[k] in products && Matches(r[k], args)
    {
      JsSliceElement(o, Offset(args), Offset(args) + Limit(args), k);
      var i :| 0 <= i < |o| && r[k] == o[i];
      assert r[k] in multiset(o);
      assert r[k] in f;
    }
  }

  /** A page never holds more than `limit` products (10 when not given). */
  lemma QueryPageSize(products: seq<Product>, args: ProductsArgs)
    requires Limit(args) >= 0
    ensures |Query(products, args)| <= Limit(args)
    ensures args.limit.None? ==> |Query(products, args)| <= DefaultLimit
  {
  }

  /** The page is the run of the sorted list that starts at `offset`. */
  lemma QueryIsPage(products: seq<Product>, args: ProductsArgs)
    requires Offset(args) >= 0
    ensures forall k :: 0 <= k < |Query(products, args)| ==>
      Offset(args) + k < |Ordered(products, args)| &&
      Query(products, args)[k] == Ordered(products, args)[Offset(args) + k]
  {
    var o := Ordered(products, args);
    assert Query(products, args) == JsSlice(o, Offset(args), Offset(args) + Limit(args));
  }

  /** A short first page is everything: every matching product appears in it. */
  lemma QueryCompleteWhenShort(products: seq<Product>, args: ProductsArgs)
    requires Offset(args) == 0 && |Query(products, args)| < Limit(args)
    ensures forall k :: 0 <= k < |products| && Matches(products[k], args) ==> products[k] in Query(products, args)
  {
    var o := Ordered(products, args);
    var f := Filter(products, ByArgs(args));
    OrderedContents(products, args);
    assert Query(products, args) == o;
    forall k | 0 <= k < |products| && Matches(products[k], args)
      ensures products[k] in o
    {
      assert products[k] in f;
      assert products[k] in multiset(o);
    }
  }

  /** A recognised `sortBy` leaves every page ordered by its key. */
  lemma QuerySortedByKey(products: seq<Product>, args: ProductsArgs)
    requires SortKey(args.sortBy).Some?
    ensures SortedBy(Query(products, args), SortKey(args.sortBy).value)
  {
    var key := SortKey(args.sortBy).value;
    SortBySorted(Filtered(products, args), key);
    SortedSlice(Ordered(products, args), key, Offset(args), Offset(args) + Limit(args));
  }

  /** What being ordered by each recognised `sortBy` key means for the products' fields. */
  lemma KeyOrderMeans(r: seq<Product>, sortBy: Option<string>)
    requires SortKey(sortBy).Some? ==> SortedBy(r, SortKey(sortBy).value)
    ensures sortBy == Some("price_asc") ==> forall i, j :: 0 <= i < j < |r| ==> r[i].price <= r[j].price
    ensures sortBy == Some("price_desc") ==> forall i, j :: 0 <= i < j < |r| ==> r[i].price >= r[j].price
    ensures sortBy == Some("rating") ==> forall i, j :: 0 <= i < j < |r| ==> r[i].rating >= r[j].rating
    ensures sortBy == Some("newest") ==> forall i, j :: 0 <= i < j < |r| ==> r[i].createdAt >= r[j].createdAt
  {
    if sortBy == Some("price_asc") {
      assert SortedBy(r, Cheapest);
    } else if sortBy == Some("price_desc") {
      assert SortedBy(r, Dearest);
    } else if sortBy == Some("rating") {
      assert SortedBy(r, BestRated);
    } else if sortBy == Some("newest") {
      assert SortedBy(r, Newest);
    }
  }

  /** The orders `price_asc`, `price_desc`, `rating` and `newest` hold on every page. */
  lemma QuerySorted(products: seq<Product>, args: ProductsArgs)
    ensures var r := Query(products, args);
      (args.sortBy == Some("price_asc") ==> forall i, j :: 0 <= i < j < |r| ==> r[i].price <= r[j].price) &&
      (args.sortBy == Some("price_desc") ==> forall i, j :: 0 <= i < j < |r| ==> r[i].price >= r[j].price) &&
      (args.sortBy == Some("rating") ==> forall i, j :: 0 <= i < j < |r| ==> r[i].rating >= r[j].rating) &&
      (args.sortBy == Some("newest") ==> forall i, j :: 0 <= i < j < |r| ==> r[i].createdAt >= r[j].createdAt)
  {
    if SortKey(args.sortBy).Some? {
      QuerySortedByKey(products, args);
    }
    KeyOrderMeans(Query(products, args), args.sortBy);
  }

  /** With no recognised `sortBy` the page keeps catalogue order. */
  lemma QueryUnsortedKeepsOrder(products: seq<Product>, args: ProductsArgs)
    requires SortKey(args.sortBy).None?
    ensures IsSubsequence(Query(products, args), products)
  {
    FilteredIsOneFilter(products, args);
    SliceOfSubsequence(Filtered(products, args), products, Offset(args), Offset(args) + Limit(args));
  }

  /** The `product(id)` query: the first product with that id, if any. */
  function ProductById(products: seq<Product>, id: string): (r: Option<Product>)
    ensures r.Some? ==> r.value in products && r.value.id == id
    ensures r.None? <==> forall k :: 0 <= k < |products| ==> products[k].id != id
  {
    Find(products, (p: Product) => p.id == id)
  }

  /** The products filed under category `id`. */
  function FiledUnder(id: string): Product -> bool
  {
    (p: Product) => p.category.id == id
  }

  /** The `category(id)` query: the category of the first product filed under that id. */
  function CategoryById(products: seq<Product>, id: string): (r: Option<Category>)
    ensures r.Some? ==> r.value.id == id && exists k :: 0 <= k < |products| && products[k].category == r.value
    ensures r.None? <==> forall k :: 0 <= k < |products| ==> products[k].category.id != id
  {
    match FirstIndex(products, FiledUnder(id))
    case None => None
    case Some(i) => Some(products[i].category)
  }

  predicate Listed(cats: seq<Category>, id: string)
  {
    exists j :: 0 <= j < |cats| && cats[j].id == id
  }

  /**
   * The `categories` query: the reduce into an object keyed by category id keeps the
   * first category seen for each id; the values come out in the order they were added.
   * Each id is listed once, and every product's category id is listed.
   */
  function Categories(products: seq<Product>): (r: seq<Category>)
    ensures forall i, j :: 0 <= i < j < |r| ==> r[i].id != r[j].id
    ensures forall k :: 0 <= k < |products| ==> Listed(r, products[k].category.id)
  {
    if products == [] then []
    else
      var init, last := products[..|products| - 1], products[|products| - 1];
      var acc := Categories(init);
      assert forall k :: 0 <= k < |init| ==> products[k] == init[k];
      if Listed(acc, last.category.id) then acc
      else
        var r := acc + [last.category];
        assert forall j :: 0 <= j < |acc| ==> r[j] == acc[j];
        assert r[|acc|] == last.category;
        r
  }

  /** Each listed category is the one `category(id)` answers for its id: the first one filed under it. */
  lemma {:induction false} CategoriesAreFirst(products: seq<Product>)
    ensures forall j :: 0 <= j < |Categories(products)| ==>
      CategoryById(products, Categories(products)[j].id) == Some(Categories(products)[j])
  {
    if products != [] {
      var init, last := products[..|products| - 1], products[|products| - 1];
      assert products == init + [last];
      var acc := Categories(init);
      CategoriesAreFirst(init);
      var r := Categories(products);
      assert r == if Listed(acc, last.category.id) then acc else acc + [last.category];
      forall j | 0 <= j < |r|
        ensures CategoryById(products, r[j].id) == Some(r[j])
      {
        if j < |acc| {
          assert r[j] == acc[j];
          CategoryByIdExtend(init, last, acc[j].id);
        } else {
          assert r[j] == last.category;
          assert forall k :: 0 <= k < |init| ==> init[k].category.id != last.category.id;
          FirstFiledLast(init, last);
        }
      }
    }
  }

  /** A category id no earlier product is filed under is answered by the last product. */
  lemma FirstFiledLast(init: seq<Product>, last: Product)
    requires forall k :: 0 <= k < |init| ==> init[k].category.id != last.category.id
    ensures CategoryById(init + [last], last.category.id) == Some(last.category)
  {
    var all := init + [last];
    var filed := FiledUnder(last.category.id);
    assert forall k :: 0 <= k < |init| ==> all[k] == init[k] && !filed(all[k]);
    assert filed(all[|init|]);
    assert FirstIndex(all, filed) == Some(|init|);
  }

  /** A category already filed under `id` in `init` keeps answering `category(id)` after more products. */
  lemma CategoryByIdExtend(init: seq<Product>, last: Product, id: string)
    requires CategoryById(init, id).Some?
    ensures CategoryById(init + [last], id) == CategoryById(init, id)
  {
    var i := FirstIndex(init, FiledUnder(id)).value;
    FirstIndexPrefix(init, [last], FiledUnder(id));
    assert (init + [last])[i] == init[i];
  }
}
