/**
 * The records the mock GraphQL server keeps in its in-memory `db`.
 * Money is in integer cents and product ratings in integer tenths of a star;
 * timestamps that only decorate records (`createdAt`, `updatedAt`) are left out,
 * except a product's creation time, which the `newest` ordering reads.
 * Object references between records (`cart.user`, `order.user`) are kept as user ids.
 */
module StoreData {
  import opened Wrappers

  /** A thrown error: `AuthenticationError`, `UserInputError` or a plain `Error`. */
  datatype Error =
    | AuthenticationError(message: string)
    | UserInputError(message: string)
    | PlainError(message: string)

  datatype AddressInput = AddressInput(
    addressLine1: string, addressLine2: string, city: string,
    state: string, postalCode: string, country: string)

  datatype Address = Address(id: string, fields: AddressInput)

  datatype User = User(
    id: string,
    email: string,
    password: string,          // the stored password hash
    firstName: Option<string>,
    lastName: Option<string>,
    phone: Option<string>,
    birthDate: Option<string>,
    address: Option<Address>,
    profileCompleted: bool,
    surveyCompleted: bool)

  datatype Category = Category(id: string, name: string)

  datatype Product = Product(
    id: string,
    name: string,
    description: string,
    price: int,                // cents
    rating: int,               // tenths of a star
    category: Category,
    tags: seq<string>,
    createdAt: int)            // milliseconds since the epoch

  datatype CartItem = CartItem(id: string, product: Product, quantity: int)

  datatype Cart = Cart(id: string, userId: string, items: seq<CartItem>, subtotal: int)

  datatype OrderItem = OrderItem(id: string, product: Product, quantity: int, price: int)

  datatype Order = Order(
    id: string,
    userId: string,
    items: seq<OrderItem>,
    subtotal: int,
    total: int,
    status: string,
    shippingAddress: Address,
    paymentMethod: string,
    paymentStatus: string)

  /** A health profile; the survey fields its input spreads in are kept as a string map. */
  datatype HealthProfile = HealthProfile(id: string, userId: string, details: map<string, string>)
}
