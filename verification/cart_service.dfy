/**
 * CartServiceImpl: the per-user cart, its lines and its cached total.
 *
 * The logged-in user's email (AuthUtil) is a parameter.  Each @Transactional
 * method either applies completely or, on an exception, leaves the store as
 * it was; where the Java code has already saved something before it throws,
 * the method restores the fields it changed, as the rollback would.
 */
module CartService {
  import opened Entities
  import opened CartLedger
  import opened Repositories

  /** createCart: the user's existing cart, or a new empty one saved for them. */
  method CreateCart(st: Store, email: string) returns (cartId: Id)
    requires st.Valid()
    modifies st`carts, st`nextId
    ensures st.Valid()
    ensures old(st.Consistent()) ==> st.Consistent()
    ensures st.CartFor(email) == Some(cartId) && st.carts[cartId] == old(st.CartOrNew(email))
    ensures old(st.CartFor(email)).Some? ==>
              cartId == old(st.CartFor(email)).value && st.carts == old(st.carts) && st.nextId == old(st.nextId)
    ensures old(st.CartFor(email)).None? ==>
              && cartId == old(st.nextId) && cartId !in old(st.carts)
              && st.carts == old(st.carts)[cartId := Cart(email, 0.0, [])]
              && st.nextId == cartId + 1
  {
    if c :| c in st.carts && st.carts[c].email == email {
      st.CartForIs(email, c);
      cartId := c;
    } else {
      cartId := st.NewId();
      st.carts := st.carts[cartId := Cart(email, 0.0, [])];
      st.CartForIs(email, cartId);
    }
  }

  /**
   * addProductToCart: a new line for the product at its special price, unless
   * the cart already holds it or the stock cannot cover the quantity.
   */
  method AddProductToCart(st: Store, email: string, productId: Id, quantity: int) returns (r: Result<Id>)
    requires st.Valid()
    modifies st`carts, st`nextId
    ensures st.Valid()
    ensures old(st.Consistent()) ==> st.Consistent()
    ensures r.Err? ==> st.carts == old(st.carts) && st.nextId == old(st.nextId)
    ensures productId !in st.products ==> r == Err(NotFound("Product", "productId"))
    ensures productId in st.products ==>
              var outcome := AddLine(old(st.CartOrNew(email)), productId, st.products[productId], quantity);
              && (outcome.Err? ==> r == Err(outcome.error))
              && (outcome.Ok? ==> r.Ok? && st.carts == old(st.carts)[r.value := outcome.value])
    ensures r.Ok? ==> st.CartFor(email) == Some(r.value)
    ensures r.Ok? && old(st.CartFor(email)).Some? ==> r.value == old(st.CartFor(email)).value
    ensures r.Ok? && old(st.CartFor(email)).None? ==> r.value == old(st.nextId) && st.nextId == r.value + 1
  {
    var savedCarts, savedNextId := st.carts, st.nextId;
    ghost var start := st.CartOrNew(email);
    var cartId := CreateCart(st, email);
    ghost var created := st.carts;
    assert created == savedCarts[cartId := start];
    var added := AddLineToCart(st, cartId, productId, quantity);
    if added.Fail? {
      st.carts, st.nextId := savedCarts, savedNextId;  // rollback, including the new cart
      assert unchanged(st);
      return Err(added.error);
    }
    SaveTwice(savedCarts, cartId, start, st.carts[cartId]);
    st.CartForIs(email, cartId);
    r := Ok(cartId);
  }

  /** The part of addProductToCart after the cart is found or created. */
  method AddLineToCart(st: Store, cartId: Id, productId: Id, quantity: int) returns (r: Outcome)
    requires st.Valid() && cartId in st.carts
    modifies st`carts
    ensures st.Valid()
    ensures old(st.Consistent()) ==> st.Consistent()
    ensures r.Fail? ==> st.carts == old(st.carts)
    ensures productId !in st.products ==> r == Fail(NotFound("Product", "productId"))
    ensures productId in st.products ==>
              var outcome := AddLine(old(st.carts)[cartId], productId, st.products[productId], quantity);
              && (outcome.Err? ==> r == Fail(outcome.error))
              && (outcome.Ok? ==> r == Pass && st.carts == old(st.carts)[cartId := outcome.value])
  {
    if productId !in st.products {
      return Fail(NotFound("Product", "productId"));
    }
    var product := st.products[productId];
    var cart := st.carts[cartId];

    if LineIndex(cart.items, productId).Some? {
      return Fail(Api(AlreadyInCart(product.name)));
    }
    if product.quantity == 0 {
      return Fail(Api(NotAvailable(product.name)));
    }
    if product.quantity < quantity {
      return Fail(Api(OrderAtMost(product.name, product.quantity)));
    }

    ghost var before := cart;
    var line := CartItem(productId, quantity, product.specialPrice, product.discount);
    cart := cart.(items := cart.items + [line]);
    cart := cart.(total := cart.total + product.specialPrice * quantity as real);
    AddLineBuilds(before, productId, product, quantity);
    AddLineWellFormed(before, productId, product, quantity, st.products.Keys);
    if st.Consistent() {
      AddLineKeepsPriced(before, st.products, productId, quantity);
    }
    st.SaveCart(cartId, cart);
    r := Pass;
  }

  /**
   * updateProductQuantityInCart: adds `delta` to the quantity of the
   * product's line in the user's cart, refreshing its price and discount;
   * a line whose quantity reaches zero is deleted instead.
   */
  method UpdateProductQuantityInCart(st: Store, email: string, productId: Id, delta: int) returns (r: Result<Id>)
    requires st.Valid()
    modifies st`carts
    ensures st.Valid()
    ensures old(st.Consistent()) ==> st.Consistent()
    ensures r.Err? ==> st.carts == old(st.carts)
    ensures old(st.CartFor(email)).None? ==> r == Err(NullPointer)
    ensures old(st.CartFor(email)).Some? && productId !in st.products ==> r == Err(NotFound("Product", "productId"))
    ensures old(st.CartFor(email)).Some? && productId in st.products ==>
              var cartId := old(st.CartFor(email)).value;
              var outcome := ChangeQuantity(old(st.carts)[cartId], productId, st.products[productId], delta);
              && (outcome.Err? ==> r == Err(outcome.error))
              && (outcome.Ok? ==> r == Ok(cartId) && st.carts == old(st.carts)[cartId := outcome.value])
  {
    var cartId: Id;
    if c :| c in st.carts && st.carts[c].email == email {
      st.CartForIs(email, c);
      cartId := c;
    } else {
      return Err(NullPointer);  // userCart.getCartId() on a null cart
    }
    var changed := ChangeLineInCart(st, cartId, productId, delta);
    r := if changed.Pass? then Ok(cartId) else Err(changed.error);
  }

  /** The part of updateProductQuantityInCart after the user's cart is found. */
  method ChangeLineInCart(st: Store, cartId: Id, productId: Id, delta: int) returns (r: Outcome)
    requires st.Valid() && cartId in st.carts
    modifies st`carts
    ensures st.Valid()
    ensures old(st.Consistent()) ==> st.Consistent()
    ensures r.Fail? ==> st.carts == old(st.carts)
    ensures productId !in st.products ==> r == Fail(NotFound("Product", "productId"))
    ensures productId in st.products ==>
              var outcome := ChangeQuantity(old(st.carts)[cartId], productId, st.products[productId], delta);
              && (outcome.Err? ==> r == Fail(outcome.error))
              && (outcome.Ok? ==> r == Pass && st.carts == old(st.carts)[cartId := outcome.value])
  {
    if productId !in st.products {
      return Fail(NotFound("Product", "productId"));
    }
    var product := st.products[productId];
    if product.quantity == 0 {
      return Fail(Api(NotAvailable(product.name)));
    }
    if product.quantity < delta {
      return Fail(Api(OrderAtMost(product.name, product.quantity)));
    }

    var cart := st.carts[cartId];
    var found := LineIndex(cart.items, productId);
    if found.None? {
      return Fail(Api(NotAvailable(product.name)));
    }
    var i := found.value;
    var line := cart.items[i];

    ghost var before := cart;
    var newQuantity := line.quantity + delta;
    if newQuantity == 0 {
      var _ := DeleteProductFromCart(st, cartId, productId);
      assert ChangeQuantity(before, productId, product, delta) == RemoveLine(before, productId);
    } else {
      line := line.(price := product.specialPrice);
      line := line.(quantity := line.quantity + delta);
      line := line.(discount := product.discount);
      cart := cart.(items := cart.items[i := line]);
      cart := cart.(total := cart.total + line.price * delta as real);
      ChangeQuantityBuilds(before, productId, product, delta, i);
      assert cart.total == before.total + product.specialPrice * delta as real;
      ChangeQuantityWellFormed(before, productId, product, delta, st.products.Keys);
      if st.Consistent() {
        ChangeQuantityKeepsPriced(before, st.products, productId, delta);
      }
      st.SaveCart(cartId, cart);
    }
    r := Pass;
  }

  /** deleteProductFromCart: removes the product's line and its contribution to the total. */
  method DeleteProductFromCart(st: Store, cartId: Id, productId: Id) returns (r: Result<Removal>)
    requires st.Valid()
    modifies st`carts
    ensures st.Valid()
    ensures old(st.Consistent()) ==> st.Consistent()
    ensures r.Err? ==> st.carts == old(st.carts)
    ensures cartId !in old(st.carts) ==> r == Err(NotFound("Cart", "cartId"))
    ensures cartId in old(st.carts) ==>
              var outcome := RemoveLine(old(st.carts)[cartId], productId);
              && (outcome.Err? ==> r == Err(outcome.error))
              && (outcome.Ok? ==> st.carts == old(st.carts)[cartId := outcome.value])
              && (outcome.Ok? ==>
                    productId in st.products &&
                    r == Ok(RemovedFromCart(st.products[productId].name)))
  {
    if cartId !in st.carts {
      return Err(NotFound("Cart", "cartId"));
    }
    var cart := st.carts[cartId];
    var found := LineIndex(cart.items, productId);
    if found.None? {
      return Err(NotFound("Product", "productId"));
    }
    var i := found.value;
    var line := cart.items[i];

    ghost var before := cart;
    cart := cart.(total := cart.total - line.price * line.quantity as real);
    cart := cart.(items := RemoveAt(cart.items, i));
    assert cart == Drop(before, i);
    DropWellFormed(before, i, st.products.Keys);
    if st.Consistent() {
      DropKeepsPriced(before, i, st.products);
    }
    st.SaveCart(cartId, cart);

    r := Ok(RemovedFromCart(st.products[productId].name));
  }

  /**
   * updateProductInCarts: after a product change, its line in this cart takes
   * the product's special price and the total is adjusted by the difference.
   */
  method UpdateProductInCarts(st: Store, cartId: Id, productId: Id) returns (r: Outcome)
    requires st.Valid()
    modifies st`carts
    ensures st.Valid()
    ensures old(st.Consistent()) ==> st.Consistent()
    ensures r.Fail? ==> st.carts == old(st.carts)
    ensures cartId !in old(st.carts) ==> r == Fail(NotFound("Cart", "cartId"))
    ensures cartId in old(st.carts) && productId !in st.products ==> r == Fail(NotFound("Product", "productId"))
    ensures cartId in old(st.carts) && productId in st.products ==>
              var outcome := Reprice(old(st.carts)[cartId], productId, st.products[productId]);
              && (outcome.Err? ==> r == Fail(outcome.error))
              && (outcome.Ok? ==> r == Pass && st.carts == old(st.carts)[cartId := outcome.value])
  {
    if cartId !in st.carts {
      return Fail(NotFound("Cart", "cartId"));
    }
    var cart := st.carts[cartId];
    if productId !in st.products {
      return Fail(NotFound("Product", "productId"));
    }
    var product := st.products[productId];

    var found := LineIndex(cart.items, productId);
    if found.None? {
      return Fail(Api(NotAvailable(product.name)));
    }
    var i := found.value;
    var line := cart.items[i];

    ghost var before := cart;
    var cartPrice := cart.total - line.price * line.quantity as real;
    line := line.(price := product.specialPrice);
    cart := cart.(items := cart.items[i := line]);
    cart := cart.(total := cartPrice + line.price * line.quantity as real);
    RepriceBuilds(before, productId, product, i);
    assert cart.total == before.total - before.items[i].price * before.items[i].quantity as real
                         + product.specialPrice * before.items[i].quantity as real;
    RepriceWellFormed(before, productId, product, st.products.Keys);
    if st.Consistent() {
      RepriceKeepsPriced(before, st.products, productId);
    }
    st.SaveCart(cartId, cart);
    r := Pass;
  }
}
