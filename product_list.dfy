/**
 * The product list page of client/src/pages/shop/ProductList.tsx: the effect that
 * filters the fetched products by the selected category and sorts a copy by the
 * selected order. Prices are whole cents and ratings whole tenths of a star.
 */
module ProductList {
  import opened Collections
  import opened Sorting

  datatype ListProduct = ListProduct(
    id: string, name: string, price: int, rating: int, reviewCount: nat,
    category: string, tags: seq<string>)

  /** The category filter: "All" keeps every product, any other choice only its own. */
  function Selected(category: string): ListProduct -> bool
  {
    (p: ListProduct) => category == "All" || p.category == category
  }

  /** The sort key of each order: ascending price, descending price, descending rating. */
  function SortKey(sortBy: string, recommended: ListProduct -> int): ListProduct -> int
  {
    if sortBy == "price-low" then (p: ListProduct) => p.price
    else if sortBy == "price-high" then (p: ListProduct) => -p.price
    else if sortBy == "rating" then (p: ListProduct) => -p.rating
    else recommended
  }

  /**
   * What the page shows: the selected category's products, stably sorted.
   * `recommended` is the key of the default order, ascending.
   */
  function Arrange(products: seq<ListProduct>, category: string, sortBy: string,
                   recommended: ListProduct -> int): seq<ListProduct>
  {
    SortBy(Filter(products, Selected(category)), SortKey(sortBy, recommended))
  }

  /** "All" shows every product, each as often as the catalogue lists it. */
  lemma AllKeepsEverything(products: seq<ListProduct>, sortBy: string, recommended: ListProduct -> int)
    ensures multiset(Arrange(products, "All", sortBy, recommended)) == multiset(products)
  {
    FilterAll(products, Selected("All"));
    SortByPermutes(Filter(products, Selected("All")), SortKey(sortBy, recommended));
  }

  /** Any other category shows exactly the products filed under it. */
  lemma CategoryShowsItsOwn(products: seq<ListProduct>, category: string, sortBy: string,
                            recommended: ListProduct -> int)
    requires category != "All"
    ensures forall p :: p in Arrange(products, category, sortBy, recommended) <==>
                        p in products && p.category == category
  {
    var f := Filter(products, Selected(category));
    SortByPermutes(f, SortKey(sortBy, recommended));
    forall p
      ensures p in Arrange(products, category, sortBy, recommended) <==> p in f
    {
      assert p in multiset(Arrange(products, category, sortBy, recommended)) <==> p in multiset(f);
    }
  }

  /** The page is a reordering of the filtered list. */
  lemma ArrangePermutesFilter(products: seq<ListProduct>, category: string, sortBy: string,
                              recommended: ListProduct -> int)
    ensures multiset(Arrange(products, category, sortBy, recommended)) ==
            multiset(Filter(products, Selected(category)))
  {
    SortByPermutes(Filter(products, Selected(category)), SortKey(sortBy, recommended));
  }

  /** Each named order is respected. */
  lemma ArrangeOrdered(products: seq<ListProduct>, category: string, sortBy: string,
                       recommended: ListProduct -> int)
    ensures var r := Arrange(products, category, sortBy, recommended);
      (sortBy == "price-low" ==> forall i, j :: 0 <= i < j < |r| ==> r[i].price <= r[j].price) &&
      (sortBy == "price-high" ==> forall i, j :: 0 <= i < j < |r| ==> r[i].price >= r[j].price) &&
      (sortBy == "rating" ==> forall i, j :: 0 <= i < j < |r| ==> r[i].rating >= r[j].rating)
  {
    var key := SortKey(sortBy, recommended);
    SortBySorted(Filter(products, Selected(category)), key);
    var r := Arrange(products, category, sortBy, recommended);
    assert forall i, j :: 0 <= i < j < |r| ==> key(r[i]) <= key(r[j]);
  }

  class ProductListPage {
    var products: seq<ListProduct>
    var filteredProducts: seq<ListProduct>
    var selectedCategory: string
    var sortBy: string
    const recommended: ListProduct -> int

    /** The list shown is always the arrangement of the current products and choices. */
    ghost predicate Valid()
      reads this
    {
      filteredProducts == Arrange(products, selectedCategory, sortBy, recommended)
    }

    constructor (recommended: ListProduct -> int)
      ensures Valid()
      ensures products == [] && filteredProducts == [] && selectedCategory == "All" && sortBy == "recommended"
      ensures this.recommended == recommended
    {
      products := [];
      filteredProducts := [];
      selectedCategory := "All";
      sortBy := "recommended";
      this.recommended := recommended;
    }

    /** The filter-and-sort effect: filters a copy of the products, then sorts that copy. */
    method ApplyFilters()
      modifies this`filteredProducts
      ensures Valid()
      ensures filteredProducts == Arrange(products, selectedCategory, sortBy, recommended)
    {
      var filtered := products;
      if selectedCategory != "All" {
        filtered := Filter(filtered, Selected(selectedCategory));
      } else {
        FilterAll(products, Selected(selectedCategory));
      }
      filtered := SortedCopy(filtered, SortKey(sortBy, recommended));
      filteredProducts := filtered;
    }

    /** The fetch: the products arrive and the effect runs again. */
    method Load(fetched: seq<ListProduct>)
      modifies this`products, this`filteredProducts
      ensures Valid()
      ensures products == fetched
    {
      products := fetched;
      ApplyFilters();
    }

    /** Choosing a category; the effect runs again and the product list itself is kept as it was. */
    method SelectCategory(category: string)
      modifies this`selectedCategory, this`filteredProducts
      ensures Valid()
      ensures selectedCategory == category && products == old(products)
    {
      selectedCategory := category;
      ApplyFilters();
    }

    /** Choosing an order; the effect runs again and the product list itself is kept as it was. */
    method SelectSort(order: string)
      modifies this`sortBy, this`filteredProducts
      ensures Valid()
      ensures sortBy == order && products == old(products)
    {
      sortBy := order;
      ApplyFilters();
    }
  }
}
