/**
 * The mock store of server/src/graphql/resolvers.js: the module-level `db` with its
 * five arrays, and the resolvers that read and change it. Every resolver that needs a
 * caller first runs `getUser` (`Authenticate`); the ids and timestamps the source takes
 * from `Date.now()` are parameters of the methods.
 */
module Resolvers {
  import opened Wrappers
  import opened Collections
  import opened Sorting
  import opened StoreData
  import opened Accounts
  import opened Carts
  import opened Orders
  import opened Catalog

  const ProductNotFound := "Product not found"
  const ItemNotFound := "Cart item not found"
  const ProfileExists := "User already has a health profile"
  const ProfileNotFound := "Health profile not found"

  /** A cart line whose product is the one the catalogue answers for its id. */
  predicate FromCatalogue(products: seq<Product>, item: CartItem)
  {
    ProductById(products, item.product.id) == Some(item.product)
  }

  predicate LinesFromCatalogue(products: seq<Product>, items: seq<CartItem>)
  {
    forall k :: 0 <= k < |items| ==> FromCatalogue(products, items[k])
  }

  /** The cart part of the store's invariant. */
  predicate CartsValid(products: seq<Product>, carts: seq<Cart>)
  {
    OneCartPerUser(carts) &&
    forall i :: 0 <= i < |carts| ==> Consistent(carts[i]) && LinesFromCatalogue(products, carts[i].items)
  }

  /** The caller's cart, found or freshly made, is consistent and holds catalogue products. */
  lemma UserCartValid(products: seq<Product>, carts: seq<Cart>, userId: string, cartId: string)
    requires CartsValid(products, carts)
    ensures Consistent(UserCart(carts, userId, cartId))
    ensures LinesFromCatalogue(products, UserCart(carts, userId, cartId).items)
  {
    if CartOf(carts, userId).Some? {
      assert UserCart(carts, userId, cartId) == carts[CartOf(carts, userId).value];
    }
  }

  /** Storing a valid cart as the caller's cart keeps the carts valid. */
  lemma PutCartValid(products: seq<Product>, carts: seq<Cart>, userId: string, c: Cart)
    requires CartsValid(products, carts)
    requires c.userId == userId && Consistent(c) && LinesFromCatalogue(products, c.items)
    ensures CartsValid(products, PutCart(carts, userId, c))
  {
    PutCartFound(carts, userId, c);
  }

  /** Replacing cart `k` by a valid cart of the same user keeps the carts valid. */
  lemma SetCartValid(products: seq<Product>, carts: seq<Cart>, k: nat, c: Cart)
    requires CartsValid(products, carts) && k < |carts|
    requires c.userId == carts[k].userId && Consistent(c) && LinesFromCatalogue(products, c.items)
    ensures CartsValid(products, carts[k := c])
  {
  }

  /** A line that holds a product the catalogue answers for its id has that product's price. */
  lemma CatalogueLinesPriced(products: seq<Product>, items: seq<CartItem>, p: Product)
    requires LinesFromCatalogue(products, items) && ProductById(products, p.id) == Some(p)
    ensures forall k :: 0 <= k < |items| && items[k].product.id == p.id ==> items[k].product.price == p.price
  {
    forall k | 0 <= k < |items| && items[k].product.id == p.id
      ensures items[k].product.price == p.price
    {
      assert FromCatalogue(products, items[k]);
    }
  }

  /** Adding a catalogue product keeps every line a catalogue product. */
  lemma AddLineFromCatalogue(products: seq<Product>, items: seq<CartItem>, p: Product, quantity: int, itemId: string)
    requires LinesFromCatalogue(products, items) && ProductById(products, p.id) == Some(p)
    ensures LinesFromCatalogue(products, AddLine(items, p, quantity, itemId))
  {
    var r := AddLine(items, p, quantity, itemId);
    forall k | 0 <= k < |r|
      ensures FromCatalogue(products, r[k])
    {
      if k < |items| {
        assert r[k].product == items[k].product;
        assert FromCatalogue(products, items[k]);
      }
    }
  }

  /** Updating or removing a line keeps every line a catalogue product. */
  lemma UpdateLineFromCatalogue(products: seq<Product>, items: seq<CartItem>, i: nat, quantity: int)
    requires i < |items| && LinesFromCatalogue(products, items)
    ensures LinesFromCatalogue(products, UpdateLine(items, i, quantity))
  {
    var r := UpdateLine(items, i, quantity);
    forall m | 0 <= m < |r|
      ensures FromCatalogue(products, r[m])
    {
      var j := if quantity <= 0 && m >= i then m + 1 else m;
      assert r[m].product == items[j].product;
      assert FromCatalogue(products, items[j]);
    }
  }

  function ProfileOwnedBy(userId: string): HealthProfile -> bool
  {
    (hp: HealthProfile) => hp.userId == userId
  }

  /** `db.healthProfiles.findIndex(profile => profile.user.id === user.id)`. */
  function ProfileOf(profiles: seq<HealthProfile>, userId: string): Option<nat>
  {
    FirstIndex(profiles, ProfileOwnedBy(userId))
  }

  class Db {
    var users: seq<User>
    var products: seq<Product>
    var carts: seq<Cart>
    var orders: seq<Order>
    var healthProfiles: seq<HealthProfile>

    /**
     * What the resolvers maintain: emails are unique, each user has at most one cart
     * and one health profile, every cart's subtotal is the sum of its lines, which hold
     * distinct catalogue products, and every order is a placed order.
     */
    ghost predicate Valid()
      reads this
    {
      DistinctEmails(users) &&
      CartsValid(products, carts) &&
      (forall i :: 0 <= i < |orders| ==> Placed(orders[i])) &&
      (forall i, j :: 0 <= i < j < |healthProfiles| ==> healthProfiles[i].userId != healthProfiles[j].userId)
    }

    /** The store as the server starts: the given catalogue and nothing else. */
    constructor (catalogue: seq<Product>)
      ensures Valid()
      ensures products == catalogue && users == [] && carts == [] && orders == [] && healthProfiles == []
    {
      users := [];
      products := catalogue;
      carts := [];
      orders := [];
      healthProfiles := [];
    }

    /** `signUp`, with `hashed` the bcrypt hash of the password and `id` the new user's id. */
    method SignUp(email: string, hashed: string, id: string, sign: User -> string) returns (r: Result<AuthPayload, Error>)
      requires Valid()
      modifies this`users
      ensures Valid()
      ensures EmailTaken(old(users), email) ==> r == Failure(UserInputError(EmailInUse)) && users == old(users)
      ensures !EmailTaken(old(users), email) ==>
        users == old(users) + [NewUser(id, email, hashed)] &&
        r == Success(AuthPayload(sign(NewUser(id, email, hashed)), NewUser(id, email, hashed)))
    {
      if EmailTaken(users, email) {
        return Failure(UserInputError(EmailInUse));
      }
      var u := NewUser(id, email, hashed);
      SignUpKeepsEmailsDistinct(users, u);
      users := users + [u];
      r := Success(AuthPayload(sign(u), u));
    }

    /** `updateProfile`: the caller's record is replaced by the updated one, in place. */
    method UpdateProfile(auth: Credentials, input: ProfileInput, addressId: string) returns (r: Result<User, Error>)
      requires Valid()
      modifies this`users
      ensures Valid()
      ensures Authenticate(old(users), auth).Failure? ==>
        r == Failure(Authenticate(old(users), auth).error) && users == old(users)
      ensures Authenticate(old(users), auth).Success? ==>
        var u := Authenticate(old(users), auth).value;
        r == Success(UpdatedProfile(u, input, addressId)) &&
        users == ReplaceUser(old(users), u.id, UpdatedProfile(u, input, addressId))
    {
      var a := Authenticate(users, auth);
      if a.Failure? {
        return Failure(a.error);
      }
      var updated := UpdatedProfile(a.value, input, addressId);
      ReplaceUserKeepsEmailsDistinct(users, a.value.id, updated);
      users := ReplaceUser(users, a.value.id, updated);
      r := Success(updated);
    }

    /** `createHealthProfile`: one profile per user; creating it marks the survey completed. */
    method CreateHealthProfile(auth: Credentials, details: map<string, string>, profileId: string)
      returns (r: Result<HealthProfile, Error>)
      requires Valid()
      modifies this`users, this`healthProfiles
      ensures Valid()
      ensures r.Failure? ==> users == old(users) && healthProfiles == old(healthProfiles)
      ensures Authenticate(old(users), auth).Failure? ==> r == Failure(Authenticate(old(users), auth).error)
      ensures Authenticate(old(users), auth).Success? ==>
        var u := Authenticate(old(users), auth).value;
        if ProfileOf(old(healthProfiles), u.id).Some? then r == Failure(PlainError(ProfileExists))
        else
          r == Success(HealthProfile(profileId, u.id, details)) &&
          healthProfiles == old(healthProfiles) + [HealthProfile(profileId, u.id, details)] &&
          users == ReplaceUser(old(users), u.id, u.(surveyCompleted := true))
    {
      var a := Authenticate(users, auth);
      if a.Failure? {
        return Failure(a.error);
      }
      var u := a.value;
      if ProfileOf(healthProfiles, u.id).Some? {
        return Failure(PlainError(ProfileExists));
      }
      var profile := HealthProfile(profileId, u.id, details);
      assert forall k :: 0 <= k < |healthProfiles| ==> healthProfiles[k].userId != u.id by {
        assert forall k :: 0 <= k < |healthProfiles| ==> !ProfileOwnedBy(u.id)(healthProfiles[k]);
      }
      healthProfiles := healthProfiles + [profile];
      ReplaceUserKeepsEmailsDistinct(users, u.id, u.(surveyCompleted := true));
      users := ReplaceUser(users, u.id, u.(surveyCompleted := true));
      r := Success(profile);
    }

    /** `updateHealthProfile`: the caller's profile takes the given fields over its own. */
    method UpdateHealthProfile(auth: Credentials, details: map<string, string>) returns (r: Result<HealthProfile, Error>)
      requires Valid()
      modifies this`healthProfiles
      ensures Valid()
      ensures r.Failure? ==> healthProfiles == old(healthProfiles)
      ensures Authenticate(users, auth).Failure? ==> r == Failure(Authenticate(users, auth).error)
      ensures Authenticate(users, auth).Success? ==>
        match ProfileOf(old(healthProfiles), Authenticate(users, auth).value.id)
        case None => r == Failure(PlainError(ProfileNotFound))
        case Some(i) =>
          var updated := old(healthProfiles)[i].(details := old(healthProfiles)[i].details + details);
          r == Success(updated) && healthProfiles == old(healthProfiles)[i := updated]
    {
      var a := Authenticate(users, auth);
      if a.Failure? {
        return Failure(a.error);
      }
      match ProfileOf(healthProfiles, a.value.id)
      case None =>
        return Failure(PlainError(ProfileNotFound));
      case Some(i) =>
        var updated := healthProfiles[i].(details := healthProfiles[i].details + details);
        healthProfiles := healthProfiles[i := updated];
        r := Success(updated);
    }

    /**
     * `addToCart`: an unknown product fails before any cart exists; otherwise the
     * caller's cart (created empty if missing) gains `quantity` of the product, merged
     * into its line if it has one, and the subtotal grows by price times quantity.
     */
    method AddToCart(auth: Credentials, productId: string, quantity: int, cartId: string, itemId: string)
      returns (r: Result<Cart, Error>)
      requires Valid()
      modifies this`carts
      ensures Valid()
      ensures r.Failure? ==> carts == old(carts)
      ensures Authenticate(users, auth).Failure? ==> r == Failure(Authenticate(users, auth).error)
      ensures Authenticate(users, auth).Success? && ProductById(products, productId).None? ==>
        r == Failure(PlainError(ProductNotFound))
      ensures Authenticate(users, auth).Success? && ProductById(products, productId).Some? ==>
        var u := Authenticate(users, auth).value;
        var p := ProductById(products, productId).value;
        var before := UserCart(old(carts), u.id, cartId);
        r == Success(WithItems(before, AddLine(before.items, p, quantity, itemId))) &&
        carts == PutCart(old(carts), u.id, r.value) &&
        r.value.subtotal == before.subtotal + p.price * quantity &&
        QuantityOf(r.value.items, productId) == QuantityOf(before.items, productId) + quantity
    {
      var a := Authenticate(users, auth);
      if a.Failure? {
        return Failure(a.error);
      }
      var u := a.value;
      var found := ProductById(products, productId);
      if found.None? {
        return Failure(PlainError(ProductNotFound));
      }
      var p := found.value;
      var before := UserCart(carts, u.id, cartId);
      UserCartValid(products, carts, u.id, cartId);
      var after := WithItems(before, AddLine(before.items, p, quantity, itemId));
      AddLineDistinct(before.items, p, quantity, itemId);
      CatalogueLinesPriced(products, before.items, p);
      AddLineSubtotal(before.items, p, quantity, itemId);
      AddLineQuantity(before.items, p, quantity, itemId, productId);
      AddLineFromCatalogue(products, before.items, p, quantity, itemId);
      PutCartValid(products, carts, u.id, after);
      carts := PutCart(carts, u.id, after);
      r := Success(after);
    }

    /**
     * `updateCartItem`: in the caller's cart, line `itemId` is removed when `quantity`
     * is 0 or less and set to `quantity` otherwise; the subtotal follows.
     */
    method UpdateCartItem(auth: Credentials, itemId: string, quantity: int) returns (r: Result<Cart, Error>)
      requires Valid()
      modifies this`carts
      ensures Valid()
      ensures r.Failure? ==> carts == old(carts)
      ensures Authenticate(users, auth).Failure? ==> r == Failure(Authenticate(users, auth).error)
      ensures Authenticate(users, auth).Success? ==>
        match CartOf(old(carts), Authenticate(users, auth).value.id)
        case None => r == Failure(PlainError(CartNotFound))
        case Some(k) =>
          var c := old(carts)[k];
          match LineWithId(c.items, itemId)
          case None => r == Failure(PlainError(ItemNotFound))
          case Some(i) =>
            r == Success(WithItems(c, UpdateLine(c.items, i, quantity))) &&
            carts == old(carts)[k := r.value] &&
            r.value.subtotal == c.subtotal - LineTotal(c.items[i]) + (if quantity > 0 then c.items[i].product.price * quantity else 0)
    {
      var a := Authenticate(users, auth);
      if a.Failure? {
        return Failure(a.error);
      }
      match CartOf(carts, a.value.id)
      case None =>
        return Failure(PlainError(CartNotFound));
      case Some(k) =>
        var c := carts[k];
        match LineWithId(c.items, itemId)
        case None =>
          return Failure(PlainError(ItemNotFound));
        case Some(i) =>
          var after := WithItems(c, UpdateLine(c.items, i, quantity));
          UpdateLineDistinct(c.items, i, quantity);
          UpdateLineSubtotal(c.items, i, quantity);
          UpdateLineFromCatalogue(products, c.items, i, quantity);
          SetCartValid(products, carts, k, after);
          carts := carts[k := after];
          r := Success(after);
    }

    /** `removeCartItem`: line `itemId` leaves the caller's cart, and its total leaves the subtotal. */
    method RemoveCartItem(auth: Credentials, itemId: string) returns (r: Result<Cart, Error>)
      requires Valid()
      modifies this`carts
      ensures Valid()
      ensures r.Failure? ==> carts == old(carts)
      ensures Authenticate(users, auth).Failure? ==> r == Failure(Authenticate(users, auth).error)
      ensures Authenticate(users, auth).Success? ==>
        match CartOf(old(carts), Authenticate(users, auth).value.id)
        case None => r == Failure(PlainError(CartNotFound))
        case Some(k) =>
          var c := old(carts)[k];
          match LineWithId(c.items, itemId)
          case None => r == Failure(PlainError(ItemNotFound))
          case Some(i) =>
            r == Success(WithItems(c, RemoveAt(c.items, i))) &&
            carts == old(carts)[k := r.value] &&
            r.value.subtotal == c.subtotal - LineTotal(c.items[i])
    {
      var a := Authenticate(users, auth);
      if a.Failure? {
        return Failure(a.error);
      }
      match CartOf(carts, a.value.id)
      case None =>
        return Failure(PlainError(CartNotFound));
      case Some(k) =>
        var c := carts[k];
        match LineWithId(c.items, itemId)
        case None =>
          return Failure(PlainError(ItemNotFound));
        case Some(i) =>
          var after := WithItems(c, RemoveAt(c.items, i));
          RemoveLineDistinct(c.items, i);
          RemoveLineSubtotal(c.items, i);
          UpdateLineFromCatalogue(products, c.items, i, 0);
          SetCartValid(products, carts, k, after);
          carts := carts[k := after];
          r := Success(after);
    }

    /** `clearCart`: the caller's cart is left with no lines and subtotal 0. */
    method ClearCart(auth: Credentials) returns (r: Result<Cart, Error>)
      requires Valid()
      modifies this`carts
      ensures Valid()
      ensures r.Failure? ==> carts == old(carts)
      ensures Authenticate(users, auth).Failure? ==> r == Failure(Authenticate(users, auth).error)
      ensures Authenticate(users, auth).Success? ==>
        match CartOf(old(carts), Authenticate(users, auth).value.id)
        case None => r == Failure(PlainError(CartNotFound))
        case Some(k) =>
          r.Success? && r.value.items == [] && r.value.subtotal == 0 &&
          r.value.id == old(carts)[k].id && r.value.userId == old(carts)[k].userId &&
          carts == old(carts)[k := r.value]
    {
      var a := Authenticate(users, auth);
      if a.Failure? {
        return Failure(a.error);
      }
      match CartOf(carts, a.value.id)
      case None =>
        return Failure(PlainError(CartNotFound));
      case Some(k) =>
        var after := WithItems(carts[k], []);
        carts := carts[k := after];
        r := Success(after);
    }

    /**
     * `createOrder`: after the guards, the cart's lines become an order whose total is
     * the cart's subtotal, the order is recorded, and the cart is emptied.
     * The caller's stored address is the shipping address.
     */
    method CreateOrder(auth: Credentials, cartId: string, paymentMethod: string, orderId: string, stamp: string)
      returns (r: Result<Order, Error>)
      requires Valid()
      modifies this`carts, this`orders
      ensures Valid()
      ensures r.Failure? ==> carts == old(carts) && orders == old(orders)
      ensures Authenticate(users, auth).Failure? ==> r == Failure(Authenticate(users, auth).error)
      ensures Authenticate(users, auth).Success? ==>
        var u := Authenticate(users, auth).value;
        match CheckoutGuards(old(carts), u, cartId)
        case Failure(e) => r == Failure(e)
        case Success(k) =>
          var c := old(carts)[k];
          var o := NewOrder(orderId, u.id, c.items, u.address.value, paymentMethod, stamp);
          r == Success(o) && o.total == c.subtotal &&
          orders == old(orders) + [o] &&
          carts == old(carts)[k := WithItems(c, [])]
    {
      var a := Authenticate(users, auth);
      if a.Failure? {
        return Failure(a.error);
      }
      var u := a.value;
      match CheckoutGuards(carts, u, cartId)
      case Failure(e) =>
        return Failure(e);
      case Success(k) =>
        var c := carts[k];
        var o := NewOrder(orderId, u.id, c.items, u.address.value, paymentMethod, stamp);
        NewOrderPlaced(orderId, u.id, c.items, u.address.value, paymentMethod, stamp);
        orders := orders + [o];
        carts := carts[k := WithItems(c, [])];
        r := Success(o);
    }

    /** The `cart` query: the caller's cart, if they have one. */
    function CartQuery(auth: Credentials): (r: Result<Option<Cart>, Error>)
      reads this
      ensures r.Failure? <==> Authenticate(users, auth).Failure?
      ensures r.Success? ==>
        var u := Authenticate(users, auth).value;
        (r.value.Some? <==> exists k :: 0 <= k < |carts| && carts[k].userId == u.id) &&
        (r.value.Some? ==> r.value.value in carts && r.value.value.userId == u.id)
    {
      match Authenticate(users, auth)
      case Failure(e) => Failure(e)
      case Success(u) =>
        match CartOf(carts, u.id)
        case None => Success(None)
        case Some(k) => Success(Some(carts[k]))
    }

    /** The `orders` query: the caller's orders and no one else's. */
    function OrdersQuery(auth: Credentials): (r: Result<seq<Order>, Error>)
      reads this
      ensures r.Failure? <==> Authenticate(users, auth).Failure?
      ensures r.Success? ==>
        var u := Authenticate(users, auth).value;
        (forall k :: 0 <= k < |r.value| ==> r.value[k] in orders && r.value[k].userId == u.id) &&
        (forall k :: 0 <= k < |orders| && orders[k].userId == u.id ==> orders[k] in r.value) &&
        r.value == OrdersOf(orders, u.id)
    {
      match Authenticate(users, auth)
      case Failure(e) => Failure(e)
      case Success(u) => Success(OrdersOf(orders, u.id))
    }

    /** The `order(id)` query: not found, not the caller's, or the caller's order with that id. */
    function OrderQuery(auth: Credentials, id: string): (r: Result<Order, Error>)
      reads this
      ensures Authenticate(users, auth).Failure? ==> r == Failure(Authenticate(users, auth).error)
      ensures Authenticate(users, auth).Success? && (forall k :: 0 <= k < |orders| ==> orders[k].id != id) ==>
        r == Failure(PlainError(OrderNotFound))
      ensures r.Success? ==> r.value in orders && r.value.id == id && r.value.userId == Authenticate(users, auth).value.id
      ensures Authenticate(users, auth).Success? ==> r == OrderFor(orders, Authenticate(users, auth).value.id, id)
    {
      match Authenticate(users, auth)
      case Failure(e) => Failure(e)
      case Success(u) => OrderFor(orders, u.id, id)
    }

    /** The `products` query as the resolver runs it: filters, an in-place sort of the copy, a slice. */
    method Products(args: ProductsArgs) returns (r: seq<Product>)
      ensures r == Query(products, args)
    {
      var filtered := products;
      filtered := CategoryStep(filtered, args);
      filtered := TagStep(filtered, args);
      filtered := SearchStep(filtered, args);
      assert filtered == Filtered(products, args);
      var ordered := filtered;
      var key := SortKey(args.sortBy);
      if key.Some? {
        ordered := SortedCopy(filtered, key.value);
      }
      assert ordered == Ordered(products, args);
      var limit := if args.limit.Some? then args.limit.value else DefaultLimit;
      var offset := if args.offset.Some? then args.offset.value else 0;
      assert limit == Limit(args) && offset == Offset(args);
      r := JsSlice(ordered, offset, offset + limit);
    }
  }
}
