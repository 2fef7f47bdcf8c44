/**
 * The arithmetic of cart lines and cached cart totals.
 *
 * CartServiceImpl and ProductServiceImpl never recompute a cart's total from
 * its lines: each mutation adjusts `totalPrice` by the contribution of the
 * line it touches.  The functions here state those adjustments on values,
 * and the lemmas show when they keep the cached total equal to the sum of
 * price × quantity over the lines.
 */
module CartLedger {
  import opened Entities

  /** What one line contributes to its cart's total: price × quantity. */
  function Subtotal(line: CartItem): real {
    line.price * line.quantity as real
  }

  /** The sum of price × quantity over the lines. */
  function LinesTotal(items: seq<CartItem>): real {
    if items == [] then 0.0 else Subtotal(items[0]) + LinesTotal(items[1..])
  }

  predicate HasLine(items: seq<CartItem>, productId: Id) {
    exists i :: 0 <= i < |items| && items[i].productId == productId
  }

  /** At most one line per product. */
  predicate UniqueLines(items: seq<CartItem>) {
    forall i, j :: 0 <= i < j < |items| ==> items[i].productId != items[j].productId
  }

  /** Lines are unique per product and refer to existing products. */
  predicate WellFormedLines(items: seq<CartItem>, productIds: set<Id>) {
    && UniqueLines(items)
    && forall i :: 0 <= i < |items| ==> items[i].productId in productIds
  }

  /**
   * The cached total equals the line sum, and every line carries the current
   * special price of its (existing) product.
   */
  ghost predicate PricedCart(cart: Cart, products: map<Id, Product>) {
    && cart.total == LinesTotal(cart.items)
    && forall i :: 0 <= i < |cart.items| ==>
         cart.items[i].productId in products &&
         cart.items[i].price == products[cart.items[i].productId].specialPrice
  }

  /**
   * The cart-item lookup "the line for this product in this cart": the
   * position of the first line for the product, if any.
   */
  function LineIndex(items: seq<CartItem>, productId: Id): (r: Option<nat>)
    ensures r.Some? ==> r.value < |items| && items[r.value].productId == productId
    ensures r.Some? ==> forall j :: 0 <= j < r.value ==> items[j].productId != productId
    ensures r.None? <==> !HasLine(items, productId)
  {
    if items == [] then None
    else if items[0].productId == productId then Some(0)
    else match LineIndex(items[1..], productId)
      case None =>
        assert forall i :: 1 <= i < |items| ==> items[i] == items[1..][i - 1];
        None
      case Some(k) => Some(k + 1)
  }

  /** The lines with position i taken out, the others in their order. */
  function RemoveAt(items: seq<CartItem>, i: nat): (r: seq<CartItem>)
    requires i < |items|
    ensures |r| == |items| - 1
    ensures forall k :: 0 <= k < i ==> r[k] == items[k]
    ensures forall k :: i <= k < |r| ==> r[k] == items[k + 1]
  {
    items[..i] + items[i + 1..]
  }

  lemma RemoveAtMultiset(items: seq<CartItem>, i: nat)
    requires i < |items|
    ensures multiset(RemoveAt(items, i)) + multiset{items[i]} == multiset(items)
  {
    assert items == items[..i] + [items[i]] + items[i + 1..];
  }

  lemma RemoveAtUnique(items: seq<CartItem>, i: nat)
    requires i < |items|
    ensures UniqueLines(items) ==> UniqueLines(RemoveAt(items, i)) && !HasLine(RemoveAt(items, i), items[i].productId)
  {
    if UniqueLines(items) {
      var r := RemoveAt(items, i);
      forall a, b | 0 <= a < b < |r| ensures r[a].productId != r[b].productId {
        var a' := if a < i then a else a + 1;
        var b' := if b < i then b else b + 1;
        assert r[a] == items[a'] && r[b] == items[b'];
      }
      forall k | 0 <= k < |r| ensures r[k].productId != items[i].productId {
        var k' := if k < i then k else k + 1;
        assert r[k] == items[k'];
      }
    }
  }

  lemma {:induction false} LinesTotalAppend(items: seq<CartItem>, line: CartItem)
    ensures LinesTotal(items + [line]) == LinesTotal(items) + Subtotal(line)
  {
    if items == [] {
      assert items + [line] == [line];
      assert [line][1..] == [];
    } else {
      assert (items + [line])[1..] == items[1..] + [line];
      LinesTotalAppend(items[1..], line);
    }
  }

  lemma {:induction false} LinesTotalRemoveAt(items: seq<CartItem>, i: nat)
    requires i < |items|
    ensures LinesTotal(RemoveAt(items, i)) == LinesTotal(items) - Subtotal(items[i])
  {
    if i == 0 {
      assert RemoveAt(items, 0) == items[1..];
    } else {
      assert RemoveAt(items, i)[1..] == RemoveAt(items[1..], i - 1);
      LinesTotalRemoveAt(items[1..], i - 1);
    }
  }

  lemma {:induction false} LinesTotalReplaceAt(items: seq<CartItem>, i: nat, line: CartItem)
    requires i < |items|
    ensures LinesTotal(items[i := line]) == LinesTotal(items) - Subtotal(items[i]) + Subtotal(line)
  {
    if i == 0 {
      assert items[0 := line][1..] == items[1..];
    } else {
      assert items[i := line][1..] == items[1..][i - 1 := line];
      LinesTotalReplaceAt(items[1..], i - 1, line);
    }
  }

  /**
   * Taking line i out of a cart and its price × quantity off the cached total
   * (CartServiceImpl.deleteProductFromCart, ProductServiceImpl.deleteProduct).
   */
  function Drop(cart: Cart, i: nat): (r: Cart)
    requires i < |cart.items|
    ensures r.email == cart.email
    ensures r.total == cart.total - Subtotal(cart.items[i])
    ensures multiset(r.items) + multiset{cart.items[i]} == multiset(cart.items)
    ensures cart.total == LinesTotal(cart.items) ==> r.total == LinesTotal(r.items)
    ensures UniqueLines(cart.items) ==> UniqueLines(r.items) && !HasLine(r.items, cart.items[i].productId)
  {
    LinesTotalRemoveAt(cart.items, i);
    RemoveAtMultiset(cart.items, i);
    RemoveAtUnique(cart.items, i);
    Cart(cart.email, cart.total - Subtotal(cart.items[i]), RemoveAt(cart.items, i))
  }

  /** The checks and the new line of addProductToCart, applied to the user's cart. */
  function AddLine(cart: Cart, productId: Id, product: Product, quantity: int): (r: Result<Cart>)
    ensures HasLine(cart.items, productId) ==> r == Err(Api(AlreadyInCart(product.name)))
    ensures !HasLine(cart.items, productId) && product.quantity == 0 ==>
              r == Err(Api(NotAvailable(product.name)))
    ensures !HasLine(cart.items, productId) && product.quantity != 0 && product.quantity < quantity ==>
              r == Err(Api(OrderAtMost(product.name, product.quantity)))
    ensures r.Ok? <==> !HasLine(cart.items, productId) && product.quantity != 0 && quantity <= product.quantity
    ensures r.Ok? ==> r.value.email == cart.email
    ensures r.Ok? ==> r.value.items == cart.items + [CartItem(productId, quantity, product.specialPrice, product.discount)]
    ensures r.Ok? ==> r.value.total == cart.total + product.specialPrice * quantity as real
    ensures r.Ok? && cart.total == LinesTotal(cart.items) ==> r.value.total == LinesTotal(r.value.items)
    ensures r.Ok? && UniqueLines(cart.items) ==> UniqueLines(r.value.items)
  {
    if LineIndex(cart.items, productId).Some? then Err(Api(AlreadyInCart(product.name)))
    else if product.quantity == 0 then Err(Api(NotAvailable(product.name)))
    else if product.quantity < quantity then Err(Api(OrderAtMost(product.name, product.quantity)))
    else
      var line := CartItem(productId, quantity, product.specialPrice, product.discount);
      LinesTotalAppend(cart.items, line);
      Ok(Cart(cart.email, cart.total + Subtotal(line), cart.items + [line]))
  }

  /**
   * The checks and the update of updateProductQuantityInCart: `delta` is added
   * to the line's quantity; a line whose quantity reaches zero is removed.
   */
  function ChangeQuantity(cart: Cart, productId: Id, product: Product, delta: int): (r: Result<Cart>)
    ensures product.quantity == 0 ==> r == Err(Api(NotAvailable(product.name)))
    ensures product.quantity != 0 && product.quantity < delta ==>
              r == Err(Api(OrderAtMost(product.name, product.quantity)))
    ensures product.quantity != 0 && delta <= product.quantity && !HasLine(cart.items, productId) ==>
              r == Err(Api(NotAvailable(product.name)))
    ensures r.Ok? <==> product.quantity != 0 && delta <= product.quantity && HasLine(cart.items, productId)
    ensures r.Ok? ==> r.value.email == cart.email
    ensures r.Ok? ==>
              var i := LineIndex(cart.items, productId).value;
              var line := cart.items[i];
              if line.quantity + delta == 0 then r.value == Drop(cart, i)
              else (&& r.value.items == cart.items[i := CartItem(productId, line.quantity + delta, product.specialPrice, product.discount)]
                    && r.value.total == cart.total + product.specialPrice * delta as real)
    ensures r.Ok? && UniqueLines(cart.items) ==>
              && UniqueLines(r.value.items)
              && forall k :: 0 <= k < |r.value.items| && r.value.items[k].productId == productId ==>
                   r.value.items[k].quantity != 0
    ensures r.Ok? && cart.total == LinesTotal(cart.items) &&
            cart.items[LineIndex(cart.items, productId).value].price == product.specialPrice ==>
              r.value.total == LinesTotal(r.value.items)
  {
    if product.quantity == 0 then Err(Api(NotAvailable(product.name)))
    else if product.quantity < delta then Err(Api(OrderAtMost(product.name, product.quantity)))
    else match LineIndex(cart.items, productId)
      case None => Err(Api(NotAvailable(product.name)))
      case Some(i) =>
        var line := cart.items[i];
        if line.quantity + delta == 0 then Ok(Drop(cart, i))
        else
          var updated := CartItem(productId, line.quantity + delta, product.specialPrice, product.discount);
          LinesTotalReplaceAt(cart.items, i, updated);
          assert line.price == product.specialPrice ==>
            Subtotal(updated) - Subtotal(line) == product.specialPrice * delta as real;
          Ok(Cart(cart.email, cart.total + product.specialPrice * delta as real, cart.items[i := updated]))
  }

  /**
   * The delta arithmetic of updateProductQuantityInCart adds specialPrice × delta
   * to the total, while the line sum changes by specialPrice × (q + delta) − price × q:
   * the gap between the line sum and the cached total moves by exactly
   * (specialPrice − stored price) × old quantity.
   */
  lemma ChangeQuantityDrift(cart: Cart, productId: Id, product: Product, delta: int)
    requires ChangeQuantity(cart, productId, product, delta).Ok?
    requires cart.items[LineIndex(cart.items, productId).value].quantity + delta != 0
    ensures var r := ChangeQuantity(cart, productId, product, delta).value;
            var line := cart.items[LineIndex(cart.items, productId).value];
            LinesTotal(r.items) - r.total ==
              LinesTotal(cart.items) - cart.total + (product.specialPrice - line.price) * line.quantity as real
  {
    var i := LineIndex(cart.items, productId).value;
    var line := cart.items[i];
    var updated := line.(price := product.specialPrice).(quantity := line.quantity + delta).(discount := product.discount);
    ChangeQuantityBuilds(cart, productId, product, delta, i);
    var r := ChangeQuantity(cart, productId, product, delta).value;
    assert r.items == cart.items[i := updated];
    assert r.total == cart.total + product.specialPrice * delta as real;
    LinesTotalReplaceAt(cart.items, i, updated);
    DriftArithmetic(LinesTotal(cart.items), cart.total, line, updated, product.specialPrice, delta);
  }

  /** The real arithmetic behind ChangeQuantityDrift. */
  lemma DriftArithmetic(linesTotal: real, total: real, line: CartItem, updated: CartItem, specialPrice: real, delta: int)
    requires updated.price == specialPrice && updated.quantity == line.quantity + delta
    ensures (linesTotal - Subtotal(line) + Subtotal(updated)) - (total + specialPrice * delta as real)
            == linesTotal - total + (specialPrice - line.price) * line.quantity as real
  {
    var q, d := line.quantity as real, delta as real;
    assert Subtotal(updated) == specialPrice * (q + d);
    assert specialPrice * (q + d) == specialPrice * q + specialPrice * d;
    assert (specialPrice - line.price) * q == specialPrice * q - line.price * q;
  }

  /**
   * Nothing bounds a negative delta by the line's quantity: only an exact
   * zero removes the line, so a line can be left with a negative quantity.
   */
  lemma ChangeQuantityCanGoNegative()
    ensures var product := Product("Lamp", "", 5, 10.0, 0.0, 10.0, "default.png", 1);
            var cart := Cart("ann@example.com", 10.0, [CartItem(7, 1, 10.0, 0.0)]);
            ChangeQuantity(cart, 7, product, -3) == Ok(Cart("ann@example.com", -20.0, [CartItem(7, -2, 10.0, 0.0)]))
  {
    var product := Product("Lamp", "", 5, 10.0, 0.0, 10.0, "default.png", 1);
    var cart := Cart("ann@example.com", 10.0, [CartItem(7, 1, 10.0, 0.0)]);
    assert LineIndex(cart.items, 7) == Some(0);
    ChangeQuantityBuilds(cart, 7, product, -3, 0);
    assert cart.items[0 := CartItem(7, -2, 10.0, 0.0)] == [CartItem(7, -2, 10.0, 0.0)];
    assert 10.0 + 10.0 * (-3) as real == -20.0;
  }

  /** deleteProductFromCart on a cart: not-found when the product has no line. */
  function RemoveLine(cart: Cart, productId: Id): (r: Result<Cart>)
    ensures r.Ok? <==> HasLine(cart.items, productId)
    ensures r.Err? ==> r.error == NotFound("Product", "productId")
    ensures r.Ok? ==> r.value == Drop(cart, LineIndex(cart.items, productId).value)
    ensures r.Ok? && UniqueLines(cart.items) ==> UniqueLines(r.value.items) && !HasLine(r.value.items, productId)
  {
    match LineIndex(cart.items, productId)
    case None => Err(NotFound("Product", "productId"))
    case Some(i) => Ok(Drop(cart, i))
  }

  /**
   * updateProductInCarts on a cart: the product's line takes the product's
   * special price, and the total swaps the line's old contribution for its new one.
   */
  function Reprice(cart: Cart, productId: Id, product: Product): (r: Result<Cart>)
    ensures r.Ok? <==> HasLine(cart.items, productId)
    ensures r.Err? ==> r.error == Api(NotAvailable(product.name))
    ensures r.Ok? ==> r.value.email == cart.email && |r.value.items| == |cart.items|
    ensures r.Ok? && UniqueLines(cart.items) ==>
              forall k :: 0 <= k < |cart.items| ==>
                r.value.items[k] == if cart.items[k].productId == productId
                                    then cart.items[k].(price := product.specialPrice)
                                    else cart.items[k]
    ensures r.Ok? ==>
              var line := cart.items[LineIndex(cart.items, productId).value];
              r.value.total == cart.total - Subtotal(line) + product.specialPrice * line.quantity as real
    ensures r.Ok? && cart.total == LinesTotal(cart.items) ==> r.value.total == LinesTotal(r.value.items)
  {
    match LineIndex(cart.items, productId)
    case None => Err(Api(NotAvailable(product.name)))
    case Some(i) =>
      var line := cart.items[i];
      var cartPrice := cart.total - Subtotal(line);
      var repriced := line.(price := product.specialPrice);
      LinesTotalReplaceAt(cart.items, i, repriced);
      Ok(Cart(cart.email, cartPrice + Subtotal(repriced), cart.items[i := repriced]))
  }

  /** A cart after updateProduct's resync: repriced when it holds the product, otherwise as it was. */
  function Resync(cart: Cart, productId: Id, product: Product): (r: Cart)
    ensures !HasLine(cart.items, productId) ==> r == cart
    ensures HasLine(cart.items, productId) ==> Reprice(cart, productId, product) == Ok(r)
  {
    match Reprice(cart, productId, product)
    case Ok(repriced) => repriced
    case Err(_) => cart
  }

  /** A cart after deleteProduct's cascade: the product's line, if any, dropped. */
  function Purge(cart: Cart, productId: Id): (r: Cart)
    ensures !HasLine(cart.items, productId) ==> r == cart
    ensures HasLine(cart.items, productId) ==> r == Drop(cart, LineIndex(cart.items, productId).value)
  {
    match LineIndex(cart.items, productId)
    case None => cart
    case Some(i) => Drop(cart, i)
  }

  /**
   * Purging takes out the product's line and nothing else: with one line per
   * product none is left for it, and every line for another product stays.
   */
  lemma PurgeLines(cart: Cart, productId: Id)
    requires UniqueLines(cart.items)
    ensures UniqueLines(Purge(cart, productId).items) && !HasLine(Purge(cart, productId).items, productId)
    ensures forall k :: 0 <= k < |cart.items| && cart.items[k].productId != productId ==>
              cart.items[k] in Purge(cart, productId).items
  {
    var r := Purge(cart, productId);
    if HasLine(cart.items, productId) {
      var i := LineIndex(cart.items, productId).value;
      forall k | 0 <= k < |cart.items| && cart.items[k].productId != productId
        ensures cart.items[k] in r.items
      {
        var j := if k < i then k else k - 1;
        assert r.items[j] == cart.items[k];
      }
    }
  }

  /** The cart addProductToCart builds step by step is the one AddLine describes. */
  lemma AddLineBuilds(cart: Cart, productId: Id, product: Product, quantity: int)
    requires !HasLine(cart.items, productId) && product.quantity != 0 && quantity <= product.quantity
    ensures var line := CartItem(productId, quantity, product.specialPrice, product.discount);
            AddLine(cart, productId, product, quantity) ==
              Ok(cart.(items := cart.items + [line]).(total := cart.total + product.specialPrice * quantity as real))
  {
  }

  /** The cart updateProductQuantityInCart builds step by step when the line stays is the one ChangeQuantity describes. */
  lemma ChangeQuantityBuilds(cart: Cart, productId: Id, product: Product, delta: int, i: nat)
    requires LineIndex(cart.items, productId) == Some(i)
    requires product.quantity != 0 && delta <= product.quantity && cart.items[i].quantity + delta != 0
    ensures var line := cart.items[i].(price := product.specialPrice).(quantity := cart.items[i].quantity + delta)
                                     .(discount := product.discount);
            ChangeQuantity(cart, productId, product, delta) ==
              Ok(cart.(items := cart.items[i := line]).(total := cart.total + product.specialPrice * delta as real))
  {
  }

  /** The cart updateProductInCarts builds step by step is the one Reprice describes. */
  lemma RepriceBuilds(cart: Cart, productId: Id, product: Product, i: nat)
    requires LineIndex(cart.items, productId) == Some(i)
    ensures var line := cart.items[i].(price := product.specialPrice);
            Reprice(cart, productId, product) ==
              Ok(cart.(items := cart.items[i := line])
                     .(total := cart.total - cart.items[i].price * cart.items[i].quantity as real
                                            + product.specialPrice * cart.items[i].quantity as real))
  {
    var repriced := cart.items[i].(price := product.specialPrice);
    assert Subtotal(repriced) == product.specialPrice * cart.items[i].quantity as real;
    assert Subtotal(cart.items[i]) == cart.items[i].price * cart.items[i].quantity as real;
  }

  /** Adding a line for an existing product keeps the lines unique and referring to existing products. */
  lemma AddLineWellFormed(cart: Cart, productId: Id, product: Product, quantity: int, ids: set<Id>)
    requires WellFormedLines(cart.items, ids) && productId in ids
    requires AddLine(cart, productId, product, quantity).Ok?
    ensures WellFormedLines(AddLine(cart, productId, product, quantity).value.items, ids)
  {
    var r := AddLine(cart, productId, product, quantity).value;
    forall k | 0 <= k < |r.items| ensures r.items[k].productId in ids {
      if k < |cart.items| {
        assert r.items[k] == cart.items[k];
      }
    }
  }

  /** Dropping a line keeps the lines well formed. */
  lemma DropWellFormed(cart: Cart, i: nat, ids: set<Id>)
    requires i < |cart.items| && WellFormedLines(cart.items, ids)
    ensures WellFormedLines(Drop(cart, i).items, ids)
  {
    var r := Drop(cart, i);
    forall k | 0 <= k < |r.items| ensures r.items[k].productId in ids {
      assert r.items[k] == cart.items[if k < i then k else k + 1];
    }
  }

  /** A quantity change keeps the lines well formed. */
  lemma ChangeQuantityWellFormed(cart: Cart, productId: Id, product: Product, delta: int, ids: set<Id>)
    requires WellFormedLines(cart.items, ids)
    requires ChangeQuantity(cart, productId, product, delta).Ok?
    ensures WellFormedLines(ChangeQuantity(cart, productId, product, delta).value.items, ids)
  {
    var i := LineIndex(cart.items, productId).value;
    if cart.items[i].quantity + delta == 0 {
      DropWellFormed(cart, i, ids);
    } else {
      var r := ChangeQuantity(cart, productId, product, delta).value;
      forall k | 0 <= k < |r.items| ensures r.items[k].productId in ids {
        if k != i {
          assert r.items[k] == cart.items[k];
        }
      }
    }
  }

  /** Repricing keeps the lines well formed. */
  lemma RepriceWellFormed(cart: Cart, productId: Id, product: Product, ids: set<Id>)
    requires WellFormedLines(cart.items, ids)
    requires Reprice(cart, productId, product).Ok?
    ensures WellFormedLines(Reprice(cart, productId, product).value.items, ids)
  {
    var i := LineIndex(cart.items, productId).value;
    var r := Reprice(cart, productId, product).value;
    forall k | 0 <= k < |r.items| ensures r.items[k].productId in ids {
      if k != i {
        assert r.items[k] == cart.items[k];
      }
    }
  }

  /** Deleting the product of a cart's first line takes that line off the front. */
  lemma RemoveFirstLine(cart: Cart)
    requires cart.items != []
    ensures RemoveLine(cart, cart.items[0].productId) ==
              Ok(Cart(cart.email, cart.total - Subtotal(cart.items[0]), cart.items[1..]))
  {
    assert LineIndex(cart.items, cart.items[0].productId) == Some(0);
    assert RemoveAt(cart.items, 0) == cart.items[1..];
  }

  /** Resyncing a priced cart against the updated product leaves it priced against the updated catalogue. */
  lemma ResyncKeepsPriced(cart: Cart, products: map<Id, Product>, productId: Id, product: Product)
    requires PricedCart(cart, products) && UniqueLines(cart.items)
    requires productId in products
    ensures PricedCart(Resync(cart, productId, product), products[productId := product])
  {
    var updated := products[productId := product];
    var r := Resync(cart, productId, product);
    if HasLine(cart.items, productId) {
      forall k | 0 <= k < |r.items|
        ensures r.items[k].productId in updated && r.items[k].price == updated[r.items[k].productId].specialPrice
      {
        assert cart.items[k].productId in products;
      }
    } else {
      forall k | 0 <= k < |r.items|
        ensures r.items[k].productId in updated && r.items[k].price == updated[r.items[k].productId].specialPrice
      {
        assert cart.items[k].productId != productId;
      }
    }
  }

  /** Purging a product from a priced cart leaves it priced against the catalogue without that product. */
  lemma PurgeKeepsPriced(cart: Cart, products: map<Id, Product>, productId: Id)
    requires PricedCart(cart, products) && UniqueLines(cart.items)
    ensures PricedCart(Purge(cart, productId), products - {productId})
  {
    var r := Purge(cart, productId);
    if HasLine(cart.items, productId) {
      var i := LineIndex(cart.items, productId).value;
      forall k | 0 <= k < |r.items|
        ensures r.items[k].productId in products - {productId}
        ensures r.items[k].price == (products - {productId})[r.items[k].productId].specialPrice
      {
        var j := if k < i then k else k + 1;
        assert r.items[k] == cart.items[j];
        assert j != i;
      }
    }
  }

  /** Adding a line at the product's special price keeps a priced cart priced. */
  lemma AddLineKeepsPriced(cart: Cart, products: map<Id, Product>, productId: Id, quantity: int)
    requires PricedCart(cart, products) && productId in products
    requires AddLine(cart, productId, products[productId], quantity).Ok?
    ensures PricedCart(AddLine(cart, productId, products[productId], quantity).value, products)
  {
    var r := AddLine(cart, productId, products[productId], quantity).value;
    forall k | 0 <= k < |r.items|
      ensures r.items[k].productId in products && r.items[k].price == products[r.items[k].productId].specialPrice
    {
      if k < |cart.items| {
        assert r.items[k] == cart.items[k];
      }
    }
  }

  /** Dropping a line keeps a priced cart priced. */
  lemma DropKeepsPriced(cart: Cart, i: nat, products: map<Id, Product>)
    requires i < |cart.items| && PricedCart(cart, products)
    ensures PricedCart(Drop(cart, i), products)
  {
    var r := Drop(cart, i);
    forall k | 0 <= k < |r.items|
      ensures r.items[k].productId in products && r.items[k].price == products[r.items[k].productId].specialPrice
    {
      assert r.items[k] == cart.items[if k < i then k else k + 1];
    }
  }

  /**
   * A quantity change keeps a priced cart priced: because the stored price
   * already equals the special price, the delta arithmetic matches the line sum.
   */
  lemma ChangeQuantityKeepsPriced(cart: Cart, products: map<Id, Product>, productId: Id, delta: int)
    requires PricedCart(cart, products) && productId in products
    requires ChangeQuantity(cart, productId, products[productId], delta).Ok?
    ensures PricedCart(ChangeQuantity(cart, productId, products[productId], delta).value, products)
  {
    var i := LineIndex(cart.items, productId).value;
    if cart.items[i].quantity + delta == 0 {
      DropKeepsPriced(cart, i, products);
    } else {
      var r := ChangeQuantity(cart, productId, products[productId], delta).value;
      forall k | 0 <= k < |r.items|
        ensures r.items[k].productId in products && r.items[k].price == products[r.items[k].productId].specialPrice
      {
        if k != i {
          assert r.items[k] == cart.items[k];
        }
      }
    }
  }

  /** Repricing against the product's current special price keeps a priced cart priced. */
  lemma RepriceKeepsPriced(cart: Cart, products: map<Id, Product>, productId: Id)
    requires PricedCart(cart, products) && productId in products
    requires Reprice(cart, productId, products[productId]).Ok?
    ensures PricedCart(Reprice(cart, productId, products[productId]).value, products)
  {
    var i := LineIndex(cart.items, productId).value;
    var r := Reprice(cart, productId, products[productId]).value;
    forall k | 0 <= k < |r.items|
      ensures r.items[k].productId in products && r.items[k].price == products[r.items[k].productId].specialPrice
    {
      if k != i {
        assert r.items[k] == cart.items[k];
      }
    }
  }

  /** Whether a cart is priced depends only on the products' identities and special prices. */
  lemma PricedIgnoresStock(cart: Cart, products: map<Id, Product>, restocked: map<Id, Product>)
    requires PricedCart(cart, products)
    requires restocked.Keys == products.Keys
    requires forall p :: p in products ==> restocked[p].specialPrice == products[p].specialPrice
    ensures PricedCart(cart, restocked)
  {
  }

  /** A product added under a fresh identifier does not affect a priced cart. */
  lemma PricedIgnoresNewProduct(cart: Cart, products: map<Id, Product>, productId: Id, product: Product)
    requires PricedCart(cart, products) && productId !in products
    ensures PricedCart(cart, products[productId := product])
  {
    forall i | 0 <= i < |cart.items|
      ensures cart.items[i].productId in products[productId := product]
      ensures cart.items[i].price == products[productId := product][cart.items[i].productId].specialPrice
    {
      assert cart.items[i].productId in products;
    }
  }

  /** Lines well formed against some products stay so against more products. */
  lemma WellFormedLinesGrow(items: seq<CartItem>, ids: set<Id>, more: set<Id>)
    requires WellFormedLines(items, ids) && ids <= more
    ensures WellFormedLines(items, more)
  {
  }
}
