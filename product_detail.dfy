/**
 * The product detail page of client/src/pages/shop/ProductDetail.tsx: the lookup of the
 * route's product id, the "customers also purchased" selection, and the line the
 * add-to-cart button hands to the cart. The catalogue is the page's record of sample
 * products, listed in the order its values are enumerated; prices are whole cents.
 */
module ProductDetail {
  import opened Wrappers
  import opened Collections

  datatype DetailProduct = DetailProduct(id: string, name: string, price: int, category: string, image: string)

  /** The line handed to the cart's `addItem`. */
  datatype CartLine = CartLine(id: string, name: string, price: int, quantity: int, image: string)

  /** The quantities the selector offers, and the one it starts on. */
  const QuantityChoices: seq<int> := [1, 2, 3, 4, 5, 6, 7, 8]
  const DefaultQuantity: int := 1

  const RelatedLimit: nat := 4

  function HasId(id: string): DetailProduct -> bool
  {
    (p: DetailProduct) => p.id == id
  }

  /**
   * The product shown for the route's id: none for a missing or empty id or one the
   * catalogue does not hold, in which case the not-found view is shown.
   */
  function Lookup(catalogue: seq<DetailProduct>, id: Option<string>): (r: Option<DetailProduct>)
    ensures id.None? || id == Some("") ==> r.None?
    ensures r.Some? ==> r.value in catalogue && Some(r.value.id) == id
    ensures id.Some? && id.value != "" && (exists k :: 0 <= k < |catalogue| && catalogue[k].id == id.value) ==> r.Some?
  {
    if id.None? || id.value == "" then None
    else
      match FirstIndex(catalogue, HasId(id.value))
      case None => None
      case Some(i) => Some(catalogue[i])
  }

  /** Another product of the same category. */
  function RelatedTo(currentId: string, category: string): DetailProduct -> bool
  {
    (p: DetailProduct) => p.id != currentId && p.category == category
  }

  /** The other products of the category, in catalogue order, at most four of them. */
  function Related(catalogue: seq<DetailProduct>, currentId: string, category: string): (r: seq<DetailProduct>)
    ensures |r| <= RelatedLimit
    ensures forall k :: 0 <= k < |r| ==> r[k] in catalogue && r[k].id != currentId && r[k].category == category
  {
    JsSlice(Filter(catalogue, RelatedTo(currentId, category)), 0, RelatedLimit)
  }

  /** The selection is the first four candidates in catalogue order, or all of them when there are fewer. */
  lemma RelatedIsFirstCandidates(catalogue: seq<DetailProduct>, currentId: string, category: string)
    ensures var candidates := Filter(catalogue, RelatedTo(currentId, category));
      Related(catalogue, currentId, category) ==
        if |candidates| <= RelatedLimit then candidates else candidates[..RelatedLimit]
    ensures IsSubsequence(Related(catalogue, currentId, category), catalogue)
  {
    var candidates := Filter(catalogue, RelatedTo(currentId, category));
    SliceOfSubsequence(candidates, catalogue, 0, RelatedLimit);
  }

  /** Nothing is rendered exactly when no other product shares the category. */
  function RelatedSection(catalogue: seq<DetailProduct>, currentId: string, category: string): (r: Option<seq<DetailProduct>>)
    ensures r.None? <==> forall k :: 0 <= k < |catalogue| ==> !(catalogue[k].id != currentId && catalogue[k].category == category)
    ensures r.Some? ==> r.value == Related(catalogue, currentId, category) && r.value != []
  {
    var related := Related(catalogue, currentId, category);
    if related == [] then
      None
    else
      Some(related)
  }

  /**
   * `handleAddToCart`: nothing without a product; otherwise the product's line with
   * the selected quantity.
   */
  function AddItemPayload(product: Option<DetailProduct>, quantity: int): (r: Option<CartLine>)
    ensures r.Some? <==> product.Some?
    ensures r.Some? ==> r.value.id == product.value.id && r.value.price == product.value.price &&
                        r.value.quantity == quantity && r.value.name == product.value.name
  {
    match product
    case None => None
    case Some(p) => Some(CartLine(p.id, p.name, p.price, quantity, p.image))
  }

  /** Whatever the shopper picks from the selector, the cart receives between one and eight. */
  lemma PayloadQuantityInRange(product: DetailProduct, choice: nat)
    requires choice < |QuantityChoices|
    ensures var line := AddItemPayload(Some(product), QuantityChoices[choice]).value;
      1 <= line.quantity <= 8 && line.quantity == choice + 1
  {
  }
}
