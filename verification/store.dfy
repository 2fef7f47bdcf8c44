/**
 * The JPA repositories of the store, as the fields of one object.
 *
 * Each repository becomes a map from identifier to entity (or a set of the
 * identifiers that exist, where the core only asks whether a row exists).
 * Identifiers come from one generator, `nextId`.
 */
module Repositories {
  import opened Entities
  import opened CartLedger

  /**
   * Integrity of the stored rows: fresh identifiers lie above every stored
   * one, each user has at most one cart, each cart has at most one line per
   * product and only lines for existing products, and usernames and emails
   * are unique.
   */
  ghost predicate StoreIntegrity(products: map<Id, Product>, carts: map<Id, Cart>, orders: map<Id, Order>,
                                 payments: map<Id, Payment>, users: map<Id, User>, nextId: nat)
  {
    && (forall id :: id in products ==> id < nextId)
    && (forall id :: id in carts ==> id < nextId)
    && (forall id :: id in orders ==> id < nextId)
    && (forall id :: id in payments ==> id < nextId)
    && (forall id :: id in users ==> id < nextId)
    && (forall c, d :: c in carts && d in carts && carts[c].email == carts[d].email ==> c == d)
    && (forall c :: c in carts ==> WellFormedLines(carts[c].items, products.Keys))
    && (forall u, v :: u in users && v in users && users[u].username == users[v].username ==> u == v)
    && (forall u, v :: u in users && v in users && users[u].email == users[v].email ==> u == v)
  }

  /** Two saves of the same row leave only the second. */
  lemma SaveTwice<K, V>(m: map<K, V>, k: K, first: V, second: V)
    ensures m[k := first][k := second] == m[k := second]
  {
  }

  class Store {
    var products: map<Id, Product>
    var categories: set<Id>
    var carts: map<Id, Cart>
    var addresses: set<Id>
    var orders: map<Id, Order>
    var payments: map<Id, Payment>
    var orderItems: seq<OrderItem>
    var users: map<Id, User>
    var roles: set<AppRole>       // the role names present in the role repository
    var nextId: nat

    /** Integrity of the stored rows (see StoreIntegrity). */
    ghost predicate Valid()
      reads this
    {
      StoreIntegrity(products, carts, orders, payments, users, nextId)
    }

    /**
     * The pricing invariant: every cart's cached total is the sum of
     * price × quantity over its lines, and every line carries its product's
     * current special price.
     */
    ghost predicate Consistent()
      reads this
    {
      forall c :: c in carts ==> PricedCart(carts[c], products)
    }

    constructor (seededRoles: set<AppRole>, categoryIds: set<Id>, addressIds: set<Id>)
      ensures Valid() && Consistent()
      ensures roles == seededRoles && categories == categoryIds && addresses == addressIds
      ensures products == map[] && carts == map[] && users == map[]
      ensures orders == map[] && payments == map[] && orderItems == []
    {
      products, carts, users := map[], map[], map[];
      orders, payments, orderItems := map[], map[], [];
      roles, categories, addresses := seededRoles, categoryIds, addressIds;
      nextId := 0;
    }

    /** cartRepository.findCartByEmail: the cart owned by this email, if any. */
    ghost function CartFor(email: string): (r: Option<Id>)
      reads this
      ensures r.Some? ==> r.value in carts && carts[r.value].email == email
      ensures r.None? ==> forall c :: c in carts ==> carts[c].email != email
    {
      if exists c :: c in carts && carts[c].email == email then
        var c :| c in carts && carts[c].email == email;
        Some(c)
      else
        None
    }

    /** The user's cart, or the empty cart createCart would build for them. */
    ghost function CartOrNew(email: string): Cart
      reads this
    {
      match CartFor(email)
      case Some(c) => carts[c]
      case None => Cart(email, 0.0, [])
    }

    lemma CartForIs(email: string, c: Id)
      requires Valid() && c in carts && carts[c].email == email
      ensures CartFor(email) == Some(c)
    {
    }

    /**
     * cartRepository.save on a cart that already exists: the stored row is
     * replaced.  The owner stays the same and the lines stay well formed, so
     * integrity is kept; a priced cart keeps the store consistent.
     */
    method SaveCart(cartId: Id, cart: Cart)
      requires Valid() && cartId in carts
      requires cart.email == carts[cartId].email && WellFormedLines(cart.items, products.Keys)
      modifies this`carts
      ensures carts == old(carts)[cartId := cart]
      ensures Valid()
      ensures old(Consistent()) && PricedCart(cart, products) ==> Consistent()
    {
      carts := carts[cartId := cart];
    }

    /**
     * productRepository.save over the catalogue: the same products, stored
     * again with new stock levels.  Carts only look at the products' special
     * prices, so unchanged special prices keep the store consistent.
     */
    method SaveStock(restocked: map<Id, Product>)
      requires Valid() && restocked.Keys == products.Keys
      modifies this`products
      ensures products == restocked
      ensures Valid()
      ensures (old(Consistent()) && forall p :: p in restocked ==> restocked[p].specialPrice == old(products)[p].specialPrice)
                ==> Consistent()
    {
      if Consistent() && forall p :: p in restocked ==> restocked[p].specialPrice == products[p].specialPrice {
        forall c | c in carts ensures PricedCart(carts[c], restocked) {
          PricedIgnoresStock(carts[c], products, restocked);
        }
      }
      products := restocked;
    }

    /**
     * productRepository.save on an existing product: the stored row is
     * replaced under the same identifier.
     */
    method SaveProduct(productId: Id, product: Product)
      requires Valid() && productId in products
      modifies this`products
      ensures products == old(products)[productId := product]
      ensures Valid()
    {
      products := products[productId := product];
      assert products.Keys == old(products).Keys;
    }

    /** productRepository.save on a new product: stored under a fresh identifier. */
    method SaveNewProduct(product: Product) returns (productId: Id)
      requires Valid()
      modifies this`products, this`nextId
      ensures productId == old(nextId) && productId !in old(products) && nextId == productId + 1
      ensures products == old(products)[productId := product]
      ensures Valid()
      ensures old(Consistent()) ==> Consistent()
    {
      productId := nextId;
      nextId := nextId + 1;
      if Consistent() {
        forall c | c in carts ensures PricedCart(carts[c], products[productId := product]) {
          PricedIgnoresNewProduct(carts[c], products, productId, product);
        }
      }
      forall c | c in carts ensures WellFormedLines(carts[c].items, products.Keys + {productId}) {
        WellFormedLinesGrow(carts[c].items, products.Keys, products.Keys + {productId});
      }
      products := products[productId := product];
    }

    /**
     * productRepository.delete on a product no cart line refers to any more.
     */
    method RemoveProduct(productId: Id)
      requires Valid() && forall c :: c in carts ==> !HasLine(carts[c].items, productId)
      modifies this`products
      ensures products == old(products) - {productId}
      ensures Valid()
    {
      forall c | c in carts ensures WellFormedLines(carts[c].items, products.Keys - {productId}) {
        var items := carts[c].items;
        assert forall i :: 0 <= i < |items| ==> items[i].productId != productId;
      }
      products := products - {productId};
    }

    /**
     * cartRepository.save on every cart at once: the same carts, owned by the
     * same users, with well-formed lines.
     */
    method SaveCarts(updated: map<Id, Cart>)
      requires Valid() && updated.Keys == carts.Keys
      requires forall c :: c in carts ==> updated[c].email == carts[c].email
      requires forall c :: c in updated ==> WellFormedLines(updated[c].items, products.Keys)
      modifies this`carts
      ensures carts == updated
      ensures Valid()
    {
      carts := updated;
    }

    /** userRepository.save on a new user whose username and email are not taken. */
    method SaveNewUser(user: User) returns (userId: Id)
      requires Valid()
      requires forall u :: u in users ==> users[u].username != user.username && users[u].email != user.email
      modifies this`users, this`nextId
      ensures userId == old(nextId) && userId !in old(users) && nextId == userId + 1
      ensures users == old(users)[userId := user]
      ensures Valid()
    {
      userId := nextId;
      nextId := nextId + 1;
      users := users[userId := user];
    }

    /** The identifier the database assigns to the next saved row. */
    method NewId() returns (id: Id)
      modifies this`nextId
      ensures id == old(nextId) && nextId == id + 1
    {
      id := nextId;
      nextId := nextId + 1;
    }
  }
}
