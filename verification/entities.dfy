/**
 * The persistent entities of the store and the errors its services raise.
 *
 * Every entity that a repository keeps is a value here; the repositories
 * themselves (module Repositories) map identifiers to these values.  Prices,
 * discounts and totals are `double` in the Java code and `real` here.
 */
module Entities {

  /** Database identifiers (JPA `Long` ids). */
  type Id = nat

  /** Order dates are produced by the clock and enter the model as plain values. */
  type Date = int

  datatype Option<+T> = None | Some(value: T)

  /** The exceptions the services throw, as values. */
  datatype Error =
    | NotFound(resource: string, field: string)   // ResourceNotFoundException(resource, field, value)
    | Api(message: ApiMessage)                     // APIException(message)
    | NullPointer                                  // a dereference of a repository's null result

  /** The distinct APIException messages of the core. */
  datatype ApiMessage =
    | AlreadyInCart(productName: string)           // "Product <name> already exists in the cart"
    | NotAvailable(productName: string)            // "Product <name> not available"
    | OrderAtMost(productName: string, stock: int) // "Please, make and order of the <name> less than or equal to <stock>"
    | CartIsEmpty                                  // "Cart is empty"
    | NameExists(productName: string)              // "Product with name <name> already exists"

  /** The confirmation deleteProductFromCart returns: "Product <name> has been removed form the cart". */
  datatype Removal = RemovedFromCart(productName: string)

  datatype Result<+T> = Ok(value: T) | Err(error: Error)

  /** Result of a service method that returns nothing. */
  datatype Outcome = Pass | Fail(error: Error)

  datatype Product = Product(
    name: string,
    description: string,
    quantity: int,        // units in stock
    price: real,
    discount: real,       // a percentage
    specialPrice: real,   // the price after discount, stored with the product
    image: string,
    categoryId: Id)

  /** One line of a cart: a product, how many, and the price and discount copied when last priced. */
  datatype CartItem = CartItem(productId: Id, quantity: int, price: real, discount: real)

  /** A customer's cart, owned by the user with this email, with its cached total. */
  datatype Cart = Cart(email: string, total: real, items: seq<CartItem>)

  datatype Order = Order(
    email: string,
    date: Date,
    total: real,
    status: string,
    addressId: Id,
    paymentId: Id)

  /** The payment-gateway record bound to one order. */
  datatype Payment = Payment(
    paymentMethod: string,
    pgPaymentId: string,
    pgStatus: string,
    pgResponseMessage: string,
    pgName: string,
    orderId: Id)

  /** A frozen copy of a cart line inside an order. */
  datatype OrderItem = OrderItem(orderId: Id, productId: Id, quantity: int, discount: real, orderedPrice: real)

  datatype AppRole = RoleUser | RoleSeller | RoleAdmin

  datatype User = User(username: string, email: string, password: string, roles: set<AppRole>)
}
