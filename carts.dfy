/**
 * The cart arithmetic of server/src/graphql/resolvers.js: the recomputed subtotal,
 * the merge of `addToCart` by product id, and the line update of `updateCartItem`.
 * Money is in integer cents.
 */
module Carts {
  import opened Wrappers
  import opened Collections
  import opened StoreData

  /** One line's contribution, `item.product.price * item.quantity`. */
  function LineTotal(item: CartItem): int
  {
    item.product.price * item.quantity
  }

  /** The cart subtotal the resolvers recompute after every change. */
  function Subtotal(items: seq<CartItem>): int
  {
    SumBy(items, LineTotal)
  }

  /** The quantity term of `pid`: a line's quantity if it holds that product, else 0. */
  function QuantityTerm(pid: string): CartItem -> int
  {
    (item: CartItem) => if item.product.id == pid then item.quantity else 0
  }

  /** How many units of product `pid` the lines hold in all. */
  function QuantityOf(items: seq<CartItem>, pid: string): int
  {
    SumBy(items, QuantityTerm(pid))
  }

  predicate HasProduct(items: seq<CartItem>, pid: string)
  {
    exists k :: 0 <= k < |items| && items[k].product.id == pid
  }

  /** No two lines hold the same product. */
  predicate DistinctProducts(items: seq<CartItem>)
  {
    forall i, j :: 0 <= i < j < |items| ==> items[i].product.id != items[j].product.id
  }

  /** `cart.items.findIndex(item => item.product.id === productId)`. */
  function LineOfProduct(items: seq<CartItem>, pid: string): Option<nat>
  {
    FirstIndex(items, (item: CartItem) => item.product.id == pid)
  }

  /** `cart.items.findIndex(item => item.id === id)`. */
  function LineWithId(items: seq<CartItem>, id: string): Option<nat>
  {
    FirstIndex(items, (item: CartItem) => item.id == id)
  }

  function OwnedBy(userId: string): Cart -> bool
  {
    (c: Cart) => c.userId == userId
  }

  /** `db.carts.find(c => c.user.id === user.id)`, as an index. */
  function CartOf(carts: seq<Cart>, userId: string): Option<nat>
  {
    FirstIndex(carts, OwnedBy(userId))
  }

  /** No two carts belong to the same user. */
  predicate OneCartPerUser(carts: seq<Cart>)
  {
    forall i, j :: 0 <= i < j < |carts| ==> carts[i].userId != carts[j].userId
  }

  /** The caller's cart as `addToCart` finds it, or the empty cart `cartId` it creates when there is none. */
  function UserCart(carts: seq<Cart>, userId: string, cartId: string): (c: Cart)
    ensures c.userId == userId
    ensures CartOf(carts, userId).None? ==> c.id == cartId && c.items == [] && c.subtotal == 0
    ensures CartOf(carts, userId).Some? ==> c == carts[CartOf(carts, userId).value]
  {
    match CartOf(carts, userId)
    case Some(k) => carts[k]
    case None => Cart(cartId, userId, [], 0)
  }

  /** The carts after the caller's cart becomes `c`: replaced where it was, or pushed when it was new. */
  function PutCart(carts: seq<Cart>, userId: string, c: Cart): (r: seq<Cart>)
  {
    match CartOf(carts, userId)
    case Some(k) => carts[k := c]
    case None => carts + [c]
  }

  /**
   * Storing the caller's cart keeps one cart per user, touches no other user's cart,
   * and the `cart` query then finds exactly the stored cart.
   */
  lemma PutCartFound(carts: seq<Cart>, userId: string, c: Cart)
    requires OneCartPerUser(carts) && c.userId == userId
    ensures OneCartPerUser(PutCart(carts, userId, c))
    ensures var r := PutCart(carts, userId, c);
      CartOf(r, userId).Some? && r[CartOf(r, userId).value] == c
    ensures var r := PutCart(carts, userId, c);
      forall k :: 0 <= k < |carts| && carts[k].userId != userId ==> r[k] == carts[k]
    ensures |PutCart(carts, userId, c)| == |carts| + (if CartOf(carts, userId).Some? then 0 else 1)
  {
    var r := PutCart(carts, userId, c);
    var owned := OwnedBy(userId);
    match CartOf(carts, userId)
    case Some(k) =>
      assert owned(carts[k]) && r[k] == c && owned(c);
      assert forall j :: 0 <= j < |r| && j != k ==> r[j] == carts[j] && carts[j].userId != userId;
      assert forall j :: 0 <= j < |r| && j != k ==> !owned(r[j]);
      assert FirstIndex(r, owned) == Some(k);
    case None =>
      assert forall j :: 0 <= j < |carts| ==> !owned(r[j]);
      assert owned(r[|carts|]);
      assert FirstIndex(r, owned) == Some(|carts|);
  }

  /** A cart whose stored subtotal is the sum of its lines and whose lines hold distinct products. */
  predicate Consistent(cart: Cart)
  {
    cart.subtotal == Subtotal(cart.items) && DistinctProducts(cart.items)
  }

  /** The cart with new lines and the subtotal recomputed from them. */
  function WithItems(cart: Cart, items: seq<CartItem>): (r: Cart)
    ensures r.id == cart.id && r.userId == cart.userId && r.items == items
    ensures DistinctProducts(items) ==> Consistent(r)
  {
    cart.(items := items, subtotal := Subtotal(items))
  }

  /**
   * The lines after `addToCart`: a line already holding the product gains `quantity`;
   * otherwise one new line `itemId` is appended. The quantity is not validated.
   */
  function AddLine(items: seq<CartItem>, product: Product, quantity: int, itemId: string): (r: seq<CartItem>)
    ensures |r| == if HasProduct(items, product.id) then |items| else |items| + 1
    ensures forall k :: 0 <= k < |items| ==> r[k].id == items[k].id && r[k].product == items[k].product
    ensures forall k :: 0 <= k < |items| && items[k].product.id != product.id ==> r[k] == items[k]
    ensures !HasProduct(items, product.id) ==> r[|items|] == CartItem(itemId, product, quantity)
  {
    match LineOfProduct(items, product.id)
    case Some(i) => items[i := items[i].(quantity := items[i].quantity + quantity)]
    case None => items + [CartItem(itemId, product, quantity)]
  }

  /** Adding `quantity` of a product raises its total quantity by exactly that and leaves every other product's total alone. */
  lemma AddLineQuantity(items: seq<CartItem>, product: Product, quantity: int, itemId: string, pid: string)
    ensures QuantityOf(AddLine(items, product, quantity, itemId), pid)
            == QuantityOf(items, pid) + (if pid == product.id then quantity else 0)
  {
    var f := QuantityTerm(pid);
    match LineOfProduct(items, product.id)
    case Some(i) =>
      SumByReplace(items, i, items[i].(quantity := items[i].quantity + quantity), f);
    case None =>
      SumByConcat(items, [CartItem(itemId, product, quantity)], f);
      SumBySingle(CartItem(itemId, product, quantity), f);
  }

  /** Merging by product id keeps the lines' products distinct. */
  lemma AddLineDistinct(items: seq<CartItem>, product: Product, quantity: int, itemId: string)
    requires DistinctProducts(items)
    ensures DistinctProducts(AddLine(items, product, quantity, itemId))
  {
    var r := AddLine(items, product, quantity, itemId);
    forall i, j | 0 <= i < j < |r|
      ensures r[i].product.id != r[j].product.id
    {
      if j == |items| {
        assert r[i].product.id == items[i].product.id;
      }
    }
  }

  /**
   * When the lines that already hold the product carry its current price, the new
   * subtotal is the old one plus price times the added quantity.
   */
  lemma AddLineSubtotal(items: seq<CartItem>, product: Product, quantity: int, itemId: string)
    requires forall k :: 0 <= k < |items| && items[k].product.id == product.id ==> items[k].product.price == product.price
    ensures Subtotal(AddLine(items, product, quantity, itemId)) == Subtotal(items) + product.price * quantity
  {
    match LineOfProduct(items, product.id)
    case Some(i) =>
      var old_line := items[i];
      var new_line := old_line.(quantity := old_line.quantity + quantity);
      SumByReplace(items, i, new_line, LineTotal);
      assert LineTotal(new_line) == LineTotal(old_line) + product.price * quantity by {
        assert old_line.product.price == product.price;
        assert product.price * (old_line.quantity + quantity) == product.price * old_line.quantity + product.price * quantity;
      }
    case None =>
      SumByConcat(items, [CartItem(itemId, product, quantity)], LineTotal);
      SumBySingle(CartItem(itemId, product, quantity), LineTotal);
  }

  /**
   * The lines after `updateCartItem` on line `i`: a quantity of 0 or less removes the
   * line, any other quantity replaces the line's quantity; all other lines stay in order.
   */
  function UpdateLine(items: seq<CartItem>, i: nat, quantity: int): (r: seq<CartItem>)
    requires i < |items|
    ensures quantity <= 0 ==> |r| == |items| - 1 && r[..i] == items[..i] && r[i..] == items[i + 1..]
    ensures quantity > 0 ==> |r| == |items| && r[i] == items[i].(quantity := quantity)
    ensures quantity > 0 ==> forall k :: 0 <= k < |items| && k != i ==> r[k] == items[k]
  {
    if quantity <= 0 then RemoveAt(items, i)
    else items[i := items[i].(quantity := quantity)]
  }

  /** The subtotal after an update: the line's old total out, its new total (or nothing) in. */
  lemma UpdateLineSubtotal(items: seq<CartItem>, i: nat, quantity: int)
    requires i < |items|
    ensures Subtotal(UpdateLine(items, i, quantity))
            == Subtotal(items) - LineTotal(items[i]) + (if quantity > 0 then items[i].product.price * quantity else 0)
  {
    if quantity <= 0 {
      SumByRemoveAt(items, i, LineTotal);
    } else {
      SumByReplace(items, i, items[i].(quantity := quantity), LineTotal);
    }
  }

  /** With distinct products, a product's total quantity is the quantity on its one line. */
  lemma QuantityOfLine(items: seq<CartItem>, i: nat)
    requires i < |items| && DistinctProducts(items)
    ensures QuantityOf(items, items[i].product.id) == items[i].quantity
  {
    SumByOnly(items, i, QuantityTerm(items[i].product.id));
  }

  /** A product no line holds has total quantity 0. */
  lemma QuantityOfAbsent(items: seq<CartItem>, pid: string)
    requires !HasProduct(items, pid)
    ensures QuantityOf(items, pid) == 0
  {
    SumByZero(items, QuantityTerm(pid));
  }

  /** With distinct products, the updated line's product ends with exactly the new quantity, or none at all. */
  lemma UpdateLineQuantity(items: seq<CartItem>, i: nat, quantity: int)
    requires i < |items| && DistinctProducts(items)
    ensures QuantityOf(UpdateLine(items, i, quantity), items[i].product.id) == if quantity > 0 then quantity else 0
  {
    var r := UpdateLine(items, i, quantity);
    UpdateLineDistinct(items, i, quantity);
    if quantity <= 0 {
      forall k | 0 <= k < |r|
        ensures r[k].product.id != items[i].product.id
      {
        assert r[k] == items[if k < i then k else k + 1];
      }
      QuantityOfAbsent(r, items[i].product.id);
    } else {
      QuantityOfLine(r, i);
    }
  }

  /** Updating or removing a line keeps the lines' products distinct. */
  lemma UpdateLineDistinct(items: seq<CartItem>, i: nat, quantity: int)
    requires i < |items| && DistinctProducts(items)
    ensures DistinctProducts(UpdateLine(items, i, quantity))
  {
    var r := UpdateLine(items, i, quantity);
    if quantity <= 0 {
      forall a, b | 0 <= a < b < |r|
        ensures r[a].product.id != r[b].product.id
      {
        var a', b' := if a < i then a else a + 1, if b < i then b else b + 1;
        assert r[a] == items[a'] && r[b] == items[b'];
      }
    }
  }

  /** `removeCartItem`: the subtotal loses exactly the removed line's total. */
  lemma RemoveLineSubtotal(items: seq<CartItem>, i: nat)
    requires i < |items|
    ensures Subtotal(RemoveAt(items, i)) == Subtotal(items) - LineTotal(items[i])
  {
    SumByRemoveAt(items, i, LineTotal);
  }

  /** Removing a line keeps the lines' products distinct. */
  lemma RemoveLineDistinct(items: seq<CartItem>, i: nat)
    requires i < |items| && DistinctProducts(items)
    ensures DistinctProducts(RemoveAt(items, i))
  {
    UpdateLineDistinct(items, i, 0);
  }
}
