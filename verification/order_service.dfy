/**
 * OrderServiceImpl.placeOrder: turns the user's cart into an order.
 *
 * The order is saved with its payment, every cart line is frozen into an
 * order item, every line's quantity is taken off its product's stock, and the
 * cart is emptied line by line as deleteProductFromCart (RemoveLine) would
 * empty it, the emptied cart being saved once.  The clock (LocalDate.now) is
 * the parameter `today`.
 */
module OrderService {
  import opened Entities
  import opened CartLedger
  import opened Repositories
  import opened CartService

  /** The status every new order is saved with. */
  const OrderAccepted: string := "Order Accepted !"

  /** What placeOrder hands back: the saved order, its identifiers and its items. */
  datatype Receipt = Receipt(orderId: Id, paymentId: Id, order: Order, items: seq<OrderItem>)

  /** The order item a cart line becomes: same product, quantity and discount, the line's price frozen. */
  function FreezeLine(line: CartItem, orderId: Id): OrderItem {
    OrderItem(orderId, line.productId, line.quantity, line.discount, line.price)
  }

  /** `items` are the lines frozen one for one, in order, for this order. */
  predicate Frozen(items: seq<OrderItem>, lines: seq<CartItem>, orderId: Id) {
    && |items| == |lines|
    && forall k :: 0 <= k < |lines| ==> items[k] == FreezeLine(lines[k], orderId)
  }

  /** The sum of ordered price × quantity over order items. */
  function OrderItemsTotal(items: seq<OrderItem>): real {
    if items == [] then 0.0 else items[0].orderedPrice * items[0].quantity as real + OrderItemsTotal(items[1..])
  }

  /** Freezing keeps the money: the order items add up to what the cart lines add up to. */
  lemma {:induction false} FrozenTotal(items: seq<OrderItem>, lines: seq<CartItem>, orderId: Id)
    requires Frozen(items, lines, orderId)
    ensures OrderItemsTotal(items) == LinesTotal(lines)
  {
    if lines != [] {
      assert Frozen(items[1..], lines[1..], orderId) by {
        forall k | 0 <= k < |lines| - 1 ensures items[1..][k] == FreezeLine(lines[1..][k], orderId) {
          assert items[1..][k] == items[k + 1];
        }
      }
      FrozenTotal(items[1..], lines[1..], orderId);
    }
  }

  /** How many units of the product the lines ask for, over all lines. */
  function QtyFor(lines: seq<CartItem>, productId: Id): int {
    if lines == [] then 0
    else
      var last := lines[|lines| - 1];
      QtyFor(lines[..|lines| - 1], productId) + (if last.productId == productId then last.quantity else 0)
  }

  /** With one line per product, a product's demand is its line's quantity, and zero without a line. */
  lemma {:induction false} QtyForUnique(lines: seq<CartItem>, productId: Id)
    requires UniqueLines(lines)
    ensures forall k :: 0 <= k < |lines| && lines[k].productId == productId ==> QtyFor(lines, productId) == lines[k].quantity
    ensures !HasLine(lines, productId) ==> QtyFor(lines, productId) == 0
  {
    if lines != [] {
      var n := |lines| - 1;
      var init := lines[..n];
      assert UniqueLines(init);
      QtyForUnique(init, productId);
      if lines[n].productId == productId {
        assert !HasLine(init, productId);
      } else {
        forall k | 0 <= k < |lines| && lines[k].productId == productId
          ensures QtyFor(lines, productId) == lines[k].quantity
        {
          assert lines[k] == init[k];
        }
        if !HasLine(lines, productId) {
          assert !HasLine(init, productId) by {
            forall k | 0 <= k < |init| ensures init[k].productId != productId {
              assert init[k] == lines[k];
            }
          }
        }
      }
    }
  }

  /**
   * The catalogue after the stock loop: each line's quantity taken off its
   * product, one line after the other; nothing guards against going below zero.
   */
  function Reserve(products: map<Id, Product>, lines: seq<CartItem>): (r: map<Id, Product>)
    ensures r.Keys == products.Keys
    ensures forall p :: p in products ==>
              r[p] == products[p].(quantity := products[p].quantity - QtyFor(lines, p))
  {
    if lines == [] then products
    else
      var prev := Reserve(products, lines[..|lines| - 1]);
      var line := lines[|lines| - 1];
      if line.productId in prev then
        prev[line.productId := prev[line.productId].(quantity := prev[line.productId].quantity - line.quantity)]
      else prev
  }

  /** The stock check of addProductToCart is not repeated at checkout: stock can end up negative. */
  lemma ReserveCanOversell()
    ensures var products := map[7 := Product("Lamp", "", 1, 10.0, 0.0, 10.0, "default.png", 1)];
            var lines := [CartItem(7, 3, 10.0, 0.0)];
            Reserve(products, lines)[7].quantity == -2
  {
    var lines := [CartItem(7, 3, 10.0, 0.0)];
    assert lines[..0] == [];
  }

  /**
   * The cart after the clearing loop: no lines left, and the cached total
   * less what the lines added up to, which is zero exactly when the total
   * matched its lines.
   */
  function Emptied(cart: Cart): (r: Cart)
    ensures r.email == cart.email && r.items == []
    ensures r.total == 0.0 <==> cart.total == LinesTotal(cart.items)
  {
    Cart(cart.email, cart.total - LinesTotal(cart.items), [])
  }

  /** The order-item loop: one frozen item per cart line. */
  method FreezeCart(lines: seq<CartItem>, orderId: Id) returns (items: seq<OrderItem>)
    ensures Frozen(items, lines, orderId)
  {
    items := [];
    for i := 0 to |lines|
      invariant Frozen(items, lines[..i], orderId)
    {
      items := items + [FreezeLine(lines[i], orderId)];
    }
    assert lines[..|lines|] == lines;
  }

  /** The stock loop on the catalogue: each line's quantity taken off its product's stock. */
  method ReserveLoop(products: map<Id, Product>, lines: seq<CartItem>) returns (r: map<Id, Product>)
    ensures r == Reserve(products, lines)
  {
    r := products;
    for i := 0 to |lines|
      invariant r == Reserve(products, lines[..i])
    {
      assert lines[..i + 1][..i] == lines[..i];
      var productId := lines[i].productId;
      if productId in r {
        var product := r[productId];
        r := r[productId := product.(quantity := product.quantity - lines[i].quantity)];
      }
    }
    assert lines[..|lines|] == lines;
  }

  /** The stock loop against the store: the catalogue saved with the reserved stock. */
  method ReserveStock(st: Store, lines: seq<CartItem>)
    requires st.Valid()
    modifies st`products
    ensures st.products == Reserve(old(st.products), lines)
    ensures st.Valid()
    ensures old(st.Consistent()) ==> st.Consistent()
  {
    var products := ReserveLoop(st.products, lines);
    st.SaveStock(products);
  }

  /**
   * The clearing loop: deleteProductFromCart (RemoveLine) for each line of
   * the cart, in order.  Each step takes the line's stored price × quantity
   * off the cached total, so the cart ends empty with whatever gap its total
   * had from its lines.
   */
  method ClearCart(st: Store, cartId: Id)
    requires st.Valid() && cartId in st.carts
    modifies st`carts
    ensures st.Valid()
    ensures old(st.Consistent()) ==> st.Consistent()
    ensures st.carts == old(st.carts)[cartId := Emptied(old(st.carts)[cartId])]
  {
    var cart := st.carts[cartId];
    var lines := cart.items;
    var current := cart;
    for i := 0 to |lines|
      modifies {}
      invariant current == Cart(cart.email, cart.total - LinesTotal(lines[..i]), lines[i..])
    {
      RemoveFirstLine(current);
      assert lines[..i + 1] == lines[..i] + [lines[i]];
      LinesTotalAppend(lines[..i], lines[i]);
      var removed := RemoveLine(current, lines[i].productId);
      current := removed.value;
    }
    assert lines[..|lines|] == lines && lines[|lines|..] == [];
    assert current == Emptied(cart);
    if st.Consistent() {
      assert PricedCart(cart, st.products);
    }
    st.SaveCart(cartId, current);
  }

  /** Saving the payment and the accepted order, each under a fresh identifier. */
  method SaveOrder(st: Store, email: string, addressId: Id, total: real, paymentMethod: string, pgPaymentId: string,
                   pgStatus: string, pgResponseMessage: string, pgName: string, today: Date)
    returns (orderId: Id, paymentId: Id, order: Order)
    requires st.Valid()
    modifies st`orders, st`payments, st`nextId
    ensures st.Valid()
    ensures orderId !in old(st.orders) && paymentId !in old(st.payments)
    ensures order == Order(email, today, total, OrderAccepted, addressId, paymentId)
    ensures st.orders == old(st.orders)[orderId := order]
    ensures st.payments == old(st.payments)[paymentId :=
              Payment(paymentMethod, pgPaymentId, pgStatus, pgResponseMessage, pgName, orderId)]
  {
    paymentId := st.NewId();
    orderId := st.NewId();
    order := Order(email, today, total, OrderAccepted, addressId, paymentId);
    st.payments := st.payments[paymentId := Payment(paymentMethod, pgPaymentId, pgStatus, pgResponseMessage, pgName, orderId)];
    st.orders := st.orders[orderId := order];
  }

  /**
   * The rest of placeOrder once the order is saved: the order items, the
   * stock and the emptied cart.  On a consistent store the items add up to
   * the cart's total and the emptied cart's total is zero.
   */
  method FulfilOrder(st: Store, cartId: Id, orderId: Id) returns (items: seq<OrderItem>)
    requires st.Valid() && cartId in st.carts
    modifies st`orderItems, st`products, st`carts
    ensures st.Valid()
    ensures old(st.Consistent()) ==> st.Consistent()
    ensures var cart := old(st.carts)[cartId];
            && Frozen(items, cart.items, orderId)
            && st.orderItems == old(st.orderItems) + items
            && st.products == Reserve(old(st.products), cart.items)
            && st.carts == old(st.carts)[cartId := Emptied(cart)]
    ensures old(st.Consistent()) ==>
              OrderItemsTotal(items) == old(st.carts)[cartId].total && st.carts[cartId].total == 0.0
  {
    var cart := st.carts[cartId];
    items := FreezeCart(cart.items, orderId);
    st.orderItems := st.orderItems + items;
    ReserveStock(st, cart.items);
    ClearCart(st, cartId);
    FrozenTotal(items, cart.items, orderId);
  }

  /**
   * placeOrder once the cart and the address are found: the order and its
   * payment are saved first, and taken back when the cart turns out empty.
   */
  method Checkout(st: Store, cartId: Id, addressId: Id, paymentMethod: string, pgPaymentId: string,
                  pgStatus: string, pgResponseMessage: string, pgName: string, today: Date)
    returns (r: Result<Receipt>)
    requires st.Valid() && cartId in st.carts
    modifies st`products, st`carts, st`orders, st`payments, st`orderItems, st`nextId
    ensures st.Valid()
    ensures old(st.Consistent()) ==> st.Consistent()
    ensures r.Err? ==> unchanged(st)
    ensures r.Err? <==> old(st.carts)[cartId].items == []
    ensures r.Err? ==> r.error == Api(CartIsEmpty)
    ensures r.Ok? ==>
              var cart := old(st.carts)[cartId];
              var receipt := r.value;
              && receipt.orderId !in old(st.orders) && receipt.paymentId !in old(st.payments)
              && receipt.order == Order(cart.email, today, cart.total, OrderAccepted, addressId, receipt.paymentId)
              && st.orders == old(st.orders)[receipt.orderId := receipt.order]
              && st.payments == old(st.payments)[receipt.paymentId :=
                   Payment(paymentMethod, pgPaymentId, pgStatus, pgResponseMessage, pgName, receipt.orderId)]
              && Frozen(receipt.items, cart.items, receipt.orderId)
              && st.orderItems == old(st.orderItems) + receipt.items
              && st.products == Reserve(old(st.products), cart.items)
              && st.carts == old(st.carts)[cartId := Emptied(cart)]
    ensures r.Ok? && old(st.Consistent()) ==>
              && r.value.order.total == OrderItemsTotal(r.value.items)
              && st.carts[cartId].total == 0.0
  {
    var cart := st.carts[cartId];
    var savedOrders, savedPayments, savedNextId := st.orders, st.payments, st.nextId;
    var orderId, paymentId, order :=
      SaveOrder(st, cart.email, addressId, cart.total, paymentMethod, pgPaymentId, pgStatus, pgResponseMessage, pgName, today);

    if cart.items == [] {
      st.orders, st.payments, st.nextId := savedOrders, savedPayments, savedNextId;  // rollback
      assert unchanged(st);
      return Err(Api(CartIsEmpty));
    }

    var items := FulfilOrder(st, cartId, orderId);
    r := Ok(Receipt(orderId, paymentId, order, items));
  }

  /**
   * placeOrder: the user's cart becomes an accepted order at the cart's cached
   * total, with one payment, one order item per line, the stock taken and the
   * cart emptied.  A missing cart or address, or an empty cart, changes nothing.
   */
  method PlaceOrder(st: Store, email: string, addressId: Id, paymentMethod: string, pgPaymentId: string,
                    pgStatus: string, pgResponseMessage: string, pgName: string, today: Date)
    returns (r: Result<Receipt>)
    requires st.Valid()
    modifies st`products, st`carts, st`orders, st`payments, st`orderItems, st`nextId
    ensures st.Valid()
    ensures old(st.Consistent()) ==> st.Consistent()
    ensures r.Err? ==> unchanged(st)
    ensures old(st.CartFor(email)).None? ==> r == Err(NotFound("Cart", "email"))
    ensures old(st.CartFor(email)).Some? && addressId !in st.addresses ==> r == Err(NotFound("Address", "addressId"))
    ensures (old(st.CartFor(email)).Some? && addressId in st.addresses &&
             old(st.carts)[old(st.CartFor(email)).value].items == []) ==> r == Err(Api(CartIsEmpty))
    ensures (old(st.CartFor(email)).Some? && addressId in st.addresses &&
             old(st.carts)[old(st.CartFor(email)).value].items != []) ==> r.Ok?
    ensures r.Ok? ==>
              var cartId := old(st.CartFor(email)).value;
              var cart := old(st.carts)[cartId];
              var receipt := r.value;
              && cart.items != [] && addressId in st.addresses
              && receipt.orderId !in old(st.orders) && receipt.paymentId !in old(st.payments)
              && receipt.order == Order(email, today, cart.total, OrderAccepted, addressId, receipt.paymentId)
              && st.orders == old(st.orders)[receipt.orderId := receipt.order]
              && st.payments == old(st.payments)[receipt.paymentId :=
                   Payment(paymentMethod, pgPaymentId, pgStatus, pgResponseMessage, pgName, receipt.orderId)]
              && Frozen(receipt.items, cart.items, receipt.orderId)
              && st.orderItems == old(st.orderItems) + receipt.items
              && st.products == Reserve(old(st.products), cart.items)
              && st.carts == old(st.carts)[cartId := Emptied(cart)]
    ensures r.Ok? && old(st.Consistent()) ==>
              && r.value.order.total == OrderItemsTotal(r.value.items)
              && st.carts[old(st.CartFor(email)).value].total == 0.0
  {
    var cartId: Id;
    if c :| c in st.carts && st.carts[c].email == email {
      st.CartForIs(email, c);
      cartId := c;
    } else {
      return Err(NotFound("Cart", "email"));
    }
    if addressId !in st.addresses {
      return Err(NotFound("Address", "addressId"));
    }
    r := Checkout(st, cartId, addressId, paymentMethod, pgPaymentId, pgStatus, pgResponseMessage, pgName, today);
  }
}
