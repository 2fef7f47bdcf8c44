# Cart ledger, checkout and price propagation of a Spring e-commerce backend

This project models the core of an online-store backend written in Java with Spring Data JPA. It then proves properties of that model in Dafny.

The core is:

- **The per-user cart** (`CartServiceImpl`). The cart is created lazily. Lines are added with a duplicate check and stock checks. Quantity deltas are applied, and a line whose quantity reaches zero is removed. Lines are removed, and lines are re-priced when their product changes. The cart's cached `totalPrice` is adjusted arithmetically on every mutation and never recomputed.
- **Checkout** (`OrderServiceImpl.placeOrder`):
  - The cart and the address are validated.
  - The order and its payment are saved.
  - Every cart line is frozen into an order item.
  - Every line's quantity is taken off its product's stock.
  - The cart is emptied line by line.
  - The whole method is one transaction.
- **Product pricing and propagation** (`ProductServiceImpl`):
  - the special-price rule;
  - duplicate-name rejection when a product is added;
  - `updateProduct`, which re-prices every cart holding the product;
  - `deleteProduct`, which takes the product out of every cart;
  - the image-URL joiner.
- **Sign-up** (`AuthController.registerUser`). Usernames and emails must be unique. Role strings are resolved to application roles.

## How the model is built

- **Entities.** Every entity that a repository stores is a Dafny datatype: `Product`, `Cart`, `CartItem`, `Order`, `Payment`, `OrderItem`, `User`. They are in module `Entities`.
- **Repositories.** The JPA repositories are the fields of one `Store` object (module `Repositories`): maps from identifier to entity, and sets for the categories and addresses whose existence is all the core asks about. Identifiers come from one generator.
- **Service methods.** Each service method is a Dafny method that changes the fields listed in its `modifies` clause. It returns a `Result` (`Ok` or a typed `Error`) or an `Outcome`.
- **Exceptions.** They are values:
  - `NotFound(resource, field)` stands for `ResourceNotFoundException`;
  - `Api(message)` stands for `APIException`, with one constructor per message;
  - `NullPointer` stands for the dereference of a missing cart.
- **Transactions.** A `@Transactional` method that fails after saving something restores the fields it changed. Its contract then states that the store is unchanged.
- **Specification functions.** Each cart mutation is also a function on cart values (module `CartLedger`): `AddLine`, `ChangeQuantity`, `RemoveLine`, `Reprice`, `Resync`, `Purge`. Each imperative method is proved to produce exactly the cart that its function describes. The lemmas about those functions carry the properties.

Two store invariants are kept throughout:

- `Store.Valid` (integrity):
  - stored identifiers are below the next fresh identifier;
  - each user has at most one cart;
  - a cart has at most one line per product, and only lines for existing products;
  - usernames and emails are unique.
- `Store.Consistent` (pricing):
  - every cart's cached total equals the sum of price × quantity over its lines;
  - every line carries its product's current special price.

Every operation preserves `Valid`. Every operation preserves `Consistent` when it held before the call. The delta arithmetic of `updateProductQuantityInCart` keeps the sum only because of the second half of `Consistent`: `ChangeQuantityDrift` shows how far the total drifts without it.

The model keeps these behaviours of the code as they are written, and states each one:

- Checkout takes stock without checking it (`OrderServiceImpl.java:85-90`), so stock can go below zero: `OrderService.ReserveCanOversell`.
- `updateProduct` stores the special price carried by its input and does not recompute it from price and discount (`ProductServiceImpl.java:202`): `ProductService.Overwrite`.
- No quantity or delta is checked for sign (`CartServiceImpl.java:54`, `150`, `161-163`), and only an exact zero removes a line, so a line can be left with a negative quantity: `CartLedger.ChangeQuantityCanGoNegative`.
- The quantity update compares the stock with the delta, not with the line's new quantity (`CartServiceImpl.java:150`): `CartLedger.ChangeQuantity`.
- The quantity update adds special price × delta to the cached total instead of taking out the line's old subtotal and adding its new one (`CartServiceImpl.java:170`). The total drifts from the line sum whenever the stored price differs from the special price: `CartLedger.ChangeQuantityDrift`.
- The cart resync refreshes the line's price but keeps its old discount (`CartServiceImpl.java:226`): `CartLedger.Reprice`.

## Model

| member | source | states |
|---|---|---|
| CartLedger.LineIndex | src/main/java/com/ecommerce/project/service/CartServiceImpl.java:155-159 | the cart-item lookup: finds the line for the product when one exists, and reports absence exactly when no line has that product |
| CartLedger.LinesTotalAppend | src/main/java/com/ecommerce/project/service/CartServiceImpl.java:68-70 | appending a line adds exactly its price × quantity to the line sum |
| CartLedger.LinesTotalRemoveAt | src/main/java/com/ecommerce/project/service/CartServiceImpl.java:201-202 | removing a line takes exactly its price × quantity off the line sum |
| CartLedger.LinesTotalReplaceAt | src/main/java/com/ecommerce/project/service/CartServiceImpl.java:225-228 | replacing a line changes the line sum by the new line's subtotal less the old one's |
| CartLedger.Drop | src/main/java/com/ecommerce/project/service/CartServiceImpl.java:201-202 | taking line i out lowers the total by its price × quantity, removes exactly that line (multiset), keeps the sum invariant and keeps lines unique |
| CartLedger.AddLine | src/main/java/com/ecommerce/project/service/CartServiceImpl.java:45-70 | duplicate line, zero stock and stock below the quantity each give their error; otherwise exactly one line is appended at the special price and discount, and the total rises by special price × quantity, keeping the sum invariant |
| CartLedger.ChangeQuantity | src/main/java/com/ecommerce/project/service/CartServiceImpl.java:146-170 | zero stock, stock below the delta (not below the new quantity) and a missing line fail; a zero new quantity drops the line, otherwise the quantity grows by delta, price and discount are refreshed and the total grows by special price × delta; no zero-quantity line is left |
| CartLedger.ChangeQuantityDrift | src/main/java/com/ecommerce/project/service/CartServiceImpl.java:166-170 | the gap between line sum and cached total moves by exactly (special price − stored price) × old quantity |
| CartLedger.ChangeQuantityCanGoNegative | src/main/java/com/ecommerce/project/service/CartServiceImpl.java:161-168 | a delta of −3 on a line of 1 is accepted and leaves the line at −2 |
| CartLedger.RemoveLine | src/main/java/com/ecommerce/project/service/CartServiceImpl.java:195-202 | not-found exactly when the cart has no line for the product; otherwise the cart is Drop of that line, and no line for the product is left |
| CartLedger.Reprice | src/main/java/com/ecommerce/project/service/CartServiceImpl.java:219-228 | the product's line takes the special price with quantity and discount unchanged, other lines untouched, total = total − old price × qty + new price × qty; a missing line gives "not available" |
| CartLedger.Resync | src/main/java/com/ecommerce/project/service/ProductServiceImpl.java:206-219 | a cart holding the product is repriced, any other cart is left as it is |
| CartLedger.Purge | src/main/java/com/ecommerce/project/service/ProductServiceImpl.java:248-254 | a cart without the product is unchanged, a cart with it loses that line (Drop) |
| CartLedger.PurgeLines | src/main/java/com/ecommerce/project/service/ProductServiceImpl.java:248-254 | after purging no line for the product remains and every line for another product stays |
| CartLedger.AddLineBuilds | src/main/java/com/ecommerce/project/service/CartServiceImpl.java:59-70 | proof step used by `CartService.AddLineToCart`: unfolds AddLine, so the cart built field by field equals AddLine's result |
| CartLedger.ChangeQuantityBuilds | src/main/java/com/ecommerce/project/service/CartServiceImpl.java:166-170 | proof step used by `CartService.ChangeLineInCart` and `CartLedger.ChangeQuantityDrift`: unfolds ChangeQuantity, so the cart built field by field equals its result |
| CartLedger.RepriceBuilds | src/main/java/com/ecommerce/project/service/CartServiceImpl.java:225-228 | proof step used by `CartService.UpdateProductInCarts`: the cart built field by field equals Reprice's result |
| CartLedger.RemoveFirstLine | src/main/java/com/ecommerce/project/service/OrderServiceImpl.java:92-94 | deleting the product of the first line takes that line off the front with its price × quantity |
| CartLedger.AddLineWellFormed | src/main/java/com/ecommerce/project/service/CartServiceImpl.java:59-68 | adding a line keeps one line per product, all for existing products |
| CartLedger.DropWellFormed | src/main/java/com/ecommerce/project/service/CartServiceImpl.java:201-202 | dropping a line keeps the lines well formed |
| CartLedger.ChangeQuantityWellFormed | src/main/java/com/ecommerce/project/service/CartServiceImpl.java:161-170 | a quantity change keeps the lines well formed |
| CartLedger.RepriceWellFormed | src/main/java/com/ecommerce/project/service/CartServiceImpl.java:225-228 | repricing keeps the lines well formed |
| CartLedger.AddLineKeepsPriced | src/main/java/com/ecommerce/project/service/CartServiceImpl.java:59-70 | adding a line to a priced cart leaves it priced (total = line sum, special prices) |
| CartLedger.DropKeepsPriced | src/main/java/com/ecommerce/project/service/CartServiceImpl.java:201-202 | dropping a line leaves a priced cart priced |
| CartLedger.ChangeQuantityKeepsPriced | src/main/java/com/ecommerce/project/service/CartServiceImpl.java:161-170 | the delta arithmetic keeps a priced cart priced |
| CartLedger.RepriceKeepsPriced | src/main/java/com/ecommerce/project/service/CartServiceImpl.java:225-228 | repricing against the current special price keeps a priced cart priced |
| CartLedger.ResyncKeepsPriced | src/main/java/com/ecommerce/project/service/ProductServiceImpl.java:197-219 | resyncing a priced cart leaves it priced against the catalogue holding the updated product |
| CartLedger.PurgeKeepsPriced | src/main/java/com/ecommerce/project/service/ProductServiceImpl.java:248-262 | purging a priced cart leaves it priced against the catalogue without the product |
| CartLedger.PricedIgnoresStock | src/main/java/com/ecommerce/project/service/OrderServiceImpl.java:85-90 | changing stock levels (same products, same special prices) keeps a cart priced |
| CartLedger.PricedIgnoresNewProduct | src/main/java/com/ecommerce/project/service/ProductServiceImpl.java:185 | a product saved under a fresh identifier does not unprice any cart |
| Repositories.Store.CartFor | src/main/java/com/ecommerce/project/service/CartServiceImpl.java:235 | findCartByEmail: the returned cart belongs to the email, and none is returned only when no cart does |
| Repositories.Store.SaveCart | src/main/java/com/ecommerce/project/service/CartServiceImpl.java:206 | saving a cart replaces its row and keeps integrity; a priced cart keeps the store consistent |
| Repositories.Store.SaveStock | src/main/java/com/ecommerce/project/service/OrderServiceImpl.java:89 | saving products with new stock levels keeps integrity, and keeps consistency when special prices are unchanged |
| Repositories.Store.SaveProduct | src/main/java/com/ecommerce/project/service/ProductServiceImpl.java:204 | saving an existing product replaces its row and keeps integrity |
| Repositories.Store.SaveNewProduct | src/main/java/com/ecommerce/project/service/ProductServiceImpl.java:185 | a new product is stored under a fresh identifier, keeping integrity and consistency |
| Repositories.Store.RemoveProduct | src/main/java/com/ecommerce/project/service/ProductServiceImpl.java:262 | deleting a product no line refers to keeps integrity |
| Repositories.Store.SaveCarts | src/main/java/com/ecommerce/project/service/ProductServiceImpl.java:259 | saving carts with the same owners and well-formed lines keeps integrity |
| Repositories.Store.SaveNewUser | src/main/java/com/ecommerce/project/controller/AuthController.java:101 | a user with an untaken username and email is stored under a fresh identifier, keeping both unique |
| Repositories.Store.NewId | src/main/java/com/ecommerce/project/service/OrderServiceImpl.java:61-64 | each save of a new row takes the next identifier |
| CartService.CreateCart | src/main/java/com/ecommerce/project/service/CartServiceImpl.java:234-247 | the user's existing cart is returned unchanged; otherwise a new cart with total 0 and no lines is saved under a fresh identifier |
| CartService.AddProductToCart | src/main/java/com/ecommerce/project/service/CartServiceImpl.java:36-72 | a missing product is not found; the cart becomes exactly AddLine of the user's cart; on any error nothing changes, including a cart just created |
| CartService.AddLineToCart | src/main/java/com/ecommerce/project/service/CartServiceImpl.java:42-72 | after the cart is found: the cart becomes AddLine's result, or stays unchanged with AddLine's error |
| CartService.UpdateProductQuantityInCart | src/main/java/com/ecommerce/project/service/CartServiceImpl.java:133-174 | a user without a cart dereferences null; a missing product is not found; the cart becomes ChangeQuantity's result, or stays with its error |
| CartService.ChangeLineInCart | src/main/java/com/ecommerce/project/service/CartServiceImpl.java:143-174 | after the cart is found: the cart becomes ChangeQuantity's result, deleting the line through deleteProductFromCart when the quantity reaches zero |
| CartService.DeleteProductFromCart | src/main/java/com/ecommerce/project/service/CartServiceImpl.java:189-208 | a missing cart or line is not found and changes nothing; otherwise the cart becomes RemoveLine's result and the product's name is returned |
| CartService.UpdateProductInCarts | src/main/java/com/ecommerce/project/service/CartServiceImpl.java:211-232 | missing cart or product is not found; the cart becomes Reprice's result, or is unchanged with "not available" |
| OrderService.FrozenTotal | src/main/java/com/ecommerce/project/service/OrderServiceImpl.java:71-81 | frozen order items add up to the cart lines' price × quantity sum |
| OrderService.QtyForUnique | src/main/java/com/ecommerce/project/service/OrderServiceImpl.java:85-90 | with one line per product, a product's demand is its line's quantity, and 0 without a line |
| OrderService.Reserve | src/main/java/com/ecommerce/project/service/OrderServiceImpl.java:85-90 | every product's stock drops by exactly the quantity the lines ask for (untouched when none); the other fields stay |
| OrderService.ReserveCanOversell | src/main/java/com/ecommerce/project/service/OrderServiceImpl.java:85-90 | stock 1 and a line of 3 leave stock −2 |
| OrderService.Emptied | src/main/java/com/ecommerce/project/service/OrderServiceImpl.java:92-94 | the cleared cart has no lines, the same owner, and total 0 exactly when its total matched its lines |
| OrderService.FreezeCart | src/main/java/com/ecommerce/project/service/OrderServiceImpl.java:71-81 | one order item per line, in order, copying product, quantity, discount and the line's stored price |
| OrderService.ReserveLoop | src/main/java/com/ecommerce/project/service/OrderServiceImpl.java:85-90 | the stock loop computes Reserve |
| OrderService.ReserveStock | src/main/java/com/ecommerce/project/service/OrderServiceImpl.java:85-90 | the catalogue becomes Reserve of the lines, keeping integrity and consistency |
| OrderService.ClearCart | src/main/java/com/ecommerce/project/service/OrderServiceImpl.java:92-94 | deleting every line in turn leaves the cart Emptied, keeping integrity and consistency |
| OrderService.SaveOrder | src/main/java/com/ecommerce/project/service/OrderServiceImpl.java:52-64 | one payment with the five gateway fields bound to the order, and one accepted order at the given total, each under a fresh identifier |
| OrderService.FulfilOrder | src/main/java/com/ecommerce/project/service/OrderServiceImpl.java:71-94 | items frozen and appended, stock reserved, cart emptied; on a consistent store the items sum to the cart total and the cart total ends at 0 |
| OrderService.Checkout | src/main/java/com/ecommerce/project/service/OrderServiceImpl.java:52-103 | an empty cart fails with "Cart is empty" and leaves the store unchanged; otherwise order, payment, items, stock and cart as described |
| OrderService.PlaceOrder | src/main/java/com/ecommerce/project/service/OrderServiceImpl.java:34-104 | a missing cart, a missing address or an empty cart each fail with their error and change nothing; a found cart with lines and a known address always succeeds, and then the order has the email, address, cart total and "Order Accepted !", exactly one payment and one item per line are saved, stock drops by the line quantities and the cart is emptied |
| ProductService.SpecialPrice | src/main/java/com/ecommerce/project/service/ProductServiceImpl.java:183 | discount 0 gives the list price, discount 100 gives 0 |
| ProductService.SpecialPriceMonotone | src/main/java/com/ecommerce/project/service/ProductServiceImpl.java:183 | for a non-negative price a larger discount never gives a higher special price |
| ProductService.SpecialPriceBounds | src/main/java/com/ecommerce/project/service/ProductServiceImpl.java:183 | a discount between 0 and 100 gives a special price between 0 and the list price |
| ProductService.ConstructImageUrl | src/main/java/com/ecommerce/project/service/ProductServiceImpl.java:103-105 | the URL is the base without a trailing "/", one "/", then the name; it starts with the base and ends with the name |
| ProductService.ImageUrlTrailingSlash | src/main/java/com/ecommerce/project/service/ProductServiceImpl.java:103-105 | configuring the base with or without a trailing "/" gives the same URL |
| ProductService.ImageUrlSeparator | src/main/java/com/ecommerce/project/service/ProductServiceImpl.java:103-105 | the character just before the image name is "/" |
| ProductService.NewProduct | src/main/java/com/ecommerce/project/service/ProductServiceImpl.java:171-183 | the saved product has the input's fields, image "default.png", the category, and the computed special price |
| ProductService.Overwrite | src/main/java/com/ecommerce/project/service/ProductServiceImpl.java:195-202 | name, description, stock, discount, price and the input's special price (not recomputed) replace the old ones; image and category stay |
| ProductService.AddProduct | src/main/java/com/ecommerce/project/service/ProductServiceImpl.java:169-187 | a taken name fails first, then a missing category, saving nothing; success exactly otherwise, storing NewProduct under a fresh identifier |
| ProductService.ResyncAll | src/main/java/com/ecommerce/project/service/ProductServiceImpl.java:206-219 | every cart keeps its identifier and owner |
| ProductService.ResyncAllLines | src/main/java/com/ecommerce/project/service/ProductServiceImpl.java:206-219 | after the resync every line for the product has the new special price with quantity and discount unchanged; other lines are untouched |
| ProductService.ResyncAllWellFormed | src/main/java/com/ecommerce/project/service/ProductServiceImpl.java:206-219 | the resync keeps every cart's lines well formed |
| ProductService.ResyncAllKeepsPriced | src/main/java/com/ecommerce/project/service/ProductServiceImpl.java:197-219 | on a consistent store the resync re-derives every affected total: all carts are priced against the updated catalogue |
| ProductService.ResyncCarts | src/main/java/com/ecommerce/project/service/ProductServiceImpl.java:206-219 | calling updateProductInCarts on each cart holding the product yields ResyncAll |
| ProductService.UpdateProduct | src/main/java/com/ecommerce/project/service/ProductServiceImpl.java:190-222 | a missing product is not found and changes nothing; otherwise the product becomes Overwrite of the input and the carts become ResyncAll, keeping integrity and consistency |
| ProductService.PurgeAll | src/main/java/com/ecommerce/project/service/ProductServiceImpl.java:246-260 | every cart keeps its identifier and owner |
| ProductService.PurgeAllLines | src/main/java/com/ecommerce/project/service/ProductServiceImpl.java:246-260 | no cart holds the product afterwards; a cart that held it lost exactly that line and its price × quantity; other carts are unchanged |
| ProductService.PurgeAllWellFormed | src/main/java/com/ecommerce/project/service/ProductServiceImpl.java:246-260 | the cascade keeps every cart's lines well formed |
| ProductService.PurgeAllKeepsPriced | src/main/java/com/ecommerce/project/service/ProductServiceImpl.java:246-262 | on a consistent store every cart stays priced against the catalogue without the product |
| ProductService.PurgeLine | src/main/java/com/ecommerce/project/service/ProductServiceImpl.java:249-254 | subtracting the line's price × quantity and removing it gives Purge |
| ProductService.PurgeCarts | src/main/java/com/ecommerce/project/service/ProductServiceImpl.java:246-260 | the cascade over the product's cart lines yields PurgeAll |
| ProductService.DeleteProduct | src/main/java/com/ecommerce/project/service/ProductServiceImpl.java:239-264 | a missing product is not found and changes nothing; otherwise every cart becomes PurgeAll and the product is removed, keeping integrity and consistency |
| AuthController.ResolveRole | src/main/java/com/ecommerce/project/controller/AuthController.java:73-97 | "admin" maps to the admin role, "seller" to the seller role, and every other string to the user role (each in both directions) |
| AuthController.RolesForMissing | src/main/java/com/ecommerce/project/controller/AuthController.java:64-70 | without a role set the user gets exactly the user role |
| AuthController.RolesForEmpty | src/main/java/com/ecommerce/project/controller/AuthController.java:61-99 | an empty role set resolves to no roles |
| AuthController.RolesForNamed | src/main/java/com/ecommerce/project/controller/AuthController.java:72-89 | the admin (seller) role is granted exactly when "admin" ("seller") is requested |
| AuthController.RolesForUser | src/main/java/com/ecommerce/project/controller/AuthController.java:90-96 | the user role is granted exactly when some other string is requested |
| AuthController.ResolveRoles | src/main/java/com/ecommerce/project/controller/AuthController.java:61-99 | the loop succeeds exactly when every resolved role exists in the role store, then yields the image of the request; otherwise the role is not found |
| AuthController.RegisterUser | src/main/java/com/ecommerce/project/controller/AuthController.java:46-103 | a taken username is refused before the email is checked, then a taken email, then a missing role; a user is saved exactly when none applies, with username, email, encoded password and resolved roles; otherwise nothing is saved |

## Left out

- Floating point: prices, discounts and totals are `double` in the code and `real` here, with no rounding.
- Integer width: quantities and stock are unbounded integers, so Java's 32-bit overflow on `int` quantities is not modelled.
- DTOs, MapStruct mappers and the response assembly are not modelled. The model returns the cart identifier, the saved product, the receipt of the order, or the response message.
- Paging, sorting and search are not modelled. The same goes for category and address CRUD, signin, signout and JWT cookies, `updateProductImage` and its file I/O, and Spring Security configuration.
- The clock and the password encoder are parameters: `today` and `encode`. The logged-in user's email is a parameter.
- Bean-validation constraints on the sign-up request (sizes, blank strings, email format) are not modelled.
- Concurrency and locking are not modelled. Each `@Transactional` method is one atomic step, and its rollback is modelled by restoring the fields it changed, including the identifier generator.
- CartLedger.LineIndex: `addProductToCart` passes (product id, cart id) to `findCartItemByProductIdAndCartId`, while the quantity update, the line deletion and the repricing pass (cart id, product id). The repository query is not part of this model, so the model has one lookup meaning "the line for this product in this cart".
- Exception messages are datatype constructors rather than formatted strings. `ResourceNotFoundException` keeps its resource and field names but drops the offending value.
- The Java `Role` entity is represented by its `AppRole` name, and the role repository by the set of names it holds.
- OrderService.ClearCart: the clearing loop of `placeOrder` calls `deleteProductFromCart` for each line. The model applies `RemoveLine`, the function that `DeleteProductFromCart` is proved to follow, to the cart value line by line, and saves the emptied cart once.
- ProductService.UpdateProduct: the per-cart calls to `updateProductInCarts` are applied as `Reprice`, the function that `UpdateProductInCarts` is proved to follow, to the cart values. The carts are saved together.
- ProductService.DeleteProduct: the cascade adjusts the carts' values with `Purge` and saves all carts once, rather than saving each cart as its line is deleted. Order items that still refer to the deleted product are left as they are, as in the code.
- OrderService.ReserveStock: the products are saved once after the loop rather than one by one.
- ProductService.AddProduct: two stored products can share a name, because `updateProduct` renames a product without checking the name (`ProductServiceImpl.java:197`). For such a name the single-result lookup at `ProductServiceImpl.java:172` would fail with a data-access error, before the duplicate check at line 174. The model assumes that error does not happen and reports the duplicate-name error instead. The product entity, whose mapping would say whether the schema makes names unique, is not part of this model.
