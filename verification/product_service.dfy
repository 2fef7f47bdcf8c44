/**
 * ProductServiceImpl: the special-price rule, adding and updating products,
 * the re-pricing of every cart that holds an updated product, the removal of
 * a deleted product from every cart, and the image URL joiner.
 */
module ProductService {
  import opened Entities
  import opened CartLedger
  import opened Repositories

  /** The fields of a ProductDTO that addProduct and updateProduct read. */
  datatype ProductInput = ProductInput(
    name: string,
    description: string,
    quantity: int,
    price: real,
    discount: real,
    specialPrice: real)

  /** The image every new product is saved with. */
  const DefaultImage: string := "default.png"

  /** The price after a percentage discount: price − (discount × 0.01) × price. */
  function SpecialPrice(price: real, discount: real): (r: real)
    ensures discount == 0.0 ==> r == price
    ensures discount == 100.0 ==> r == 0.0
  {
    price - (discount * 0.01) * price
  }

  /** A larger discount never gives a higher special price. */
  lemma SpecialPriceMonotone(price: real, less: real, more: real)
    requires 0.0 <= price && less <= more
    ensures SpecialPrice(price, more) <= SpecialPrice(price, less)
  {
    var d := more - less;
    assert 0.0 <= d * price;
    assert SpecialPrice(price, less) - SpecialPrice(price, more) == 0.01 * (d * price);
  }

  /** A discount between 0 and 100 percent gives a special price between 0 and the list price. */
  lemma SpecialPriceBounds(price: real, discount: real)
    requires 0.0 <= price && 0.0 <= discount <= 100.0
    ensures 0.0 <= SpecialPrice(price, discount) <= price
  {
    SpecialPriceMonotone(price, 0.0, discount);
    SpecialPriceMonotone(price, discount, 100.0);
  }

  /** constructImageUrl: the configured base URL and the image name joined by exactly one "/". */
  function ConstructImageUrl(imageBaseUrl: string, imageName: string): (r: string)
    ensures r == WithoutTrailingSlash(imageBaseUrl) + "/" + imageName
    ensures |imageBaseUrl| <= |r| && r[..|imageBaseUrl|] == imageBaseUrl
    ensures |imageName| < |r| && r[|r| - |imageName|..] == imageName
  {
    if |imageBaseUrl| > 0 && imageBaseUrl[|imageBaseUrl| - 1] == '/' then imageBaseUrl + imageName
    else imageBaseUrl + "/" + imageName
  }

  /** The base URL with one trailing "/" taken off, if it has one. */
  function WithoutTrailingSlash(url: string): string {
    if |url| > 0 && url[|url| - 1] == '/' then url[..|url| - 1] else url
  }

  /** Whether the base URL is configured with a trailing "/" makes no difference to the image URL. */
  lemma ImageUrlTrailingSlash(imageBaseUrl: string, imageName: string)
    requires |imageBaseUrl| == 0 || imageBaseUrl[|imageBaseUrl| - 1] != '/'
    ensures ConstructImageUrl(imageBaseUrl + "/", imageName) == ConstructImageUrl(imageBaseUrl, imageName)
  {
    assert WithoutTrailingSlash(imageBaseUrl + "/") == imageBaseUrl;
  }

  /** The image URL names the image right after the last "/". */
  lemma ImageUrlSeparator(imageBaseUrl: string, imageName: string)
    ensures var r := ConstructImageUrl(imageBaseUrl, imageName);
            r[|r| - |imageName| - 1] == '/'
  {
    var r := ConstructImageUrl(imageBaseUrl, imageName);
    var prefix := WithoutTrailingSlash(imageBaseUrl) + "/";
    assert r == prefix + imageName;
    assert r[|prefix| - 1] == prefix[|prefix| - 1];
  }

  /** Whether some product in the catalogue already has this name (productRepository.findByProductName). */
  predicate NameTaken(products: map<Id, Product>, name: string) {
    exists p :: p in products && products[p].name == name
  }

  /** The product addProduct saves: the input's fields, the default image, the category, the computed special price. */
  function NewProduct(input: ProductInput, categoryId: Id): (r: Product)
    ensures r.image == DefaultImage && r.categoryId == categoryId
    ensures r.specialPrice == SpecialPrice(input.price, input.discount)
    ensures r.name == input.name && r.description == input.description && r.quantity == input.quantity
    ensures r.price == input.price && r.discount == input.discount
  {
    Product(input.name, input.description, input.quantity, input.price, input.discount,
            SpecialPrice(input.price, input.discount), DefaultImage, categoryId)
  }

  /**
   * The product updateProduct saves: name, description, stock, discount,
   * price and special price taken from the input, the special price as given
   * rather than recomputed; image and category kept.
   */
  function Overwrite(product: Product, input: ProductInput): (r: Product)
    ensures r.image == product.image && r.categoryId == product.categoryId
    ensures r.specialPrice == input.specialPrice
    ensures r.name == input.name && r.description == input.description && r.quantity == input.quantity
    ensures r.price == input.price && r.discount == input.discount
  {
    product.(name := input.name, description := input.description, quantity := input.quantity,
             discount := input.discount, price := input.price, specialPrice := input.specialPrice)
  }

  /**
   * addProduct: a new product under a fresh identifier, unless its name is
   * taken or its category does not exist; nothing is saved on an error.
   */
  method AddProduct(st: Store, categoryId: Id, input: ProductInput) returns (r: Result<Id>)
    requires st.Valid()
    modifies st`products, st`nextId
    ensures st.Valid()
    ensures old(st.Consistent()) ==> st.Consistent()
    ensures r.Err? ==> unchanged(st)
    ensures NameTaken(old(st.products), input.name) ==> r == Err(Api(NameExists(input.name)))
    ensures !NameTaken(old(st.products), input.name) && categoryId !in st.categories ==>
              r == Err(NotFound("Category", "categoryId"))
    ensures r.Ok? <==> !NameTaken(old(st.products), input.name) && categoryId in st.categories
    ensures r.Ok? ==>
              && r.value !in old(st.products)
              && st.products == old(st.products)[r.value := NewProduct(input, categoryId)]
  {
    if exists p :: p in st.products && st.products[p].name == input.name {
      return Err(Api(NameExists(input.name)));
    }
    if categoryId !in st.categories {
      return Err(NotFound("Category", "categoryId"));
    }
    var product := Product(input.name, input.description, input.quantity, input.price, input.discount,
                           0.0, "", 0);
    product := product.(image := DefaultImage);
    product := product.(categoryId := categoryId);
    product := product.(specialPrice := product.price - (product.discount * 0.01) * product.price);
    var productId := st.SaveNewProduct(product);
    r := Ok(productId);
  }

  /** Every cart after updateProduct: each one holding the product re-priced by updateProductInCarts. */
  function ResyncAll(carts: map<Id, Cart>, productId: Id, product: Product): (r: map<Id, Cart>)
    ensures r.Keys == carts.Keys
    ensures forall c :: c in carts ==> r[c].email == carts[c].email
  {
    map c | c in carts :: Resync(carts[c], productId, product)
  }

  /**
   * After the re-sync every line for the product carries the new special
   * price; its quantity and discount, the other lines and the owners stay.
   */
  lemma ResyncAllLines(carts: map<Id, Cart>, productId: Id, product: Product)
    requires forall c :: c in carts ==> UniqueLines(carts[c].items)
    ensures var r := ResyncAll(carts, productId, product);
            forall c :: c in carts ==>
              && |r[c].items| == |carts[c].items|
              && forall k :: 0 <= k < |carts[c].items| ==>
                   r[c].items[k] == if carts[c].items[k].productId == productId
                                    then carts[c].items[k].(price := product.specialPrice)
                                    else carts[c].items[k]
  {
    forall c | c in carts
      ensures var r := ResyncAll(carts, productId, product);
              && |r[c].items| == |carts[c].items|
              && forall k :: 0 <= k < |carts[c].items| ==>
                   r[c].items[k] == if carts[c].items[k].productId == productId
                                    then carts[c].items[k].(price := product.specialPrice)
                                    else carts[c].items[k]
    {
      var cart := carts[c];
      if !HasLine(cart.items, productId) {
        assert forall k :: 0 <= k < |cart.items| ==> cart.items[k].productId != productId;
      }
    }
  }

  /** The re-sync keeps every cart's lines well formed. */
  lemma ResyncAllWellFormed(carts: map<Id, Cart>, productId: Id, product: Product, ids: set<Id>)
    requires forall c :: c in carts ==> WellFormedLines(carts[c].items, ids)
    ensures forall c :: c in carts ==> WellFormedLines(ResyncAll(carts, productId, product)[c].items, ids)
  {
    forall c | c in carts ensures WellFormedLines(ResyncAll(carts, productId, product)[c].items, ids) {
      if HasLine(carts[c].items, productId) {
        RepriceWellFormed(carts[c], productId, product, ids);
      }
    }
  }

  /**
   * On a consistent store the re-sync leaves every cart priced against the
   * updated catalogue: totals equal their line sums again.
   */
  lemma ResyncAllKeepsPriced(carts: map<Id, Cart>, products: map<Id, Product>, productId: Id, product: Product)
    requires productId in products
    requires forall c :: c in carts ==> PricedCart(carts[c], products) && UniqueLines(carts[c].items)
    ensures forall c :: c in carts ==>
              PricedCart(ResyncAll(carts, productId, product)[c], products[productId := product])
  {
    forall c | c in carts
      ensures PricedCart(ResyncAll(carts, productId, product)[c], products[productId := product])
    {
      ResyncKeepsPriced(carts[c], products, productId, product);
    }
  }

  /**
   * The re-sync loop: updateProductInCarts (Reprice) on each cart that holds
   * the product (cartRepository.findCartByProductId).
   */
  method ResyncCarts(carts: map<Id, Cart>, productId: Id, product: Product) returns (r: map<Id, Cart>)
    ensures r == ResyncAll(carts, productId, product)
  {
    r := carts;
    var holders := set c | c in carts && LineIndex(carts[c].items, productId).Some?;
    while holders != {}
      invariant holders <= carts.Keys && r.Keys == carts.Keys
      invariant forall c :: c in holders ==> r[c] == carts[c] && LineIndex(carts[c].items, productId).Some?
      invariant forall c :: c in carts && c !in holders ==> r[c] == Resync(carts[c], productId, product)
      decreases holders
    {
      var c :| c in holders;
      var repriced := Reprice(r[c], productId, product);
      r := r[c := repriced.value];
      holders := holders - {c};
    }
    ResyncedEverywhere(r, carts, productId, product);
  }

  lemma ResyncedEverywhere(r: map<Id, Cart>, carts: map<Id, Cart>, productId: Id, product: Product)
    requires r.Keys == carts.Keys && forall c :: c in carts ==> r[c] == Resync(carts[c], productId, product)
    ensures r == ResyncAll(carts, productId, product)
  {
  }

  /**
   * updateProduct: the product's fields overwritten from the input, then
   * every cart holding it re-priced.  A missing product changes nothing.
   */
  method UpdateProduct(st: Store, productId: Id, input: ProductInput) returns (r: Result<Product>)
    requires st.Valid()
    modifies st`products, st`carts
    ensures st.Valid()
    ensures old(st.Consistent()) ==> st.Consistent()
    ensures productId !in old(st.products) ==> r == Err(NotFound("Product", "productId")) && unchanged(st)
    ensures productId in old(st.products) ==>
              var updated := Overwrite(old(st.products)[productId], input);
              && r == Ok(updated)
              && st.products == old(st.products)[productId := updated]
              && st.carts == ResyncAll(old(st.carts), productId, updated)
  {
    if productId !in st.products {
      return Err(NotFound("Product", "productId"));
    }
    var product := st.products[productId];
    product := product.(name := input.name);
    product := product.(description := input.description);
    product := product.(quantity := input.quantity);
    product := product.(discount := input.discount);
    product := product.(price := input.price);
    product := product.(specialPrice := input.specialPrice);
    ghost var products0 := st.products;
    st.SaveProduct(productId, product);

    var carts := ResyncCarts(st.carts, productId, product);
    ResyncAllWellFormed(st.carts, productId, product, st.products.Keys);
    if old(st.Consistent()) {
      ResyncAllKeepsPriced(st.carts, products0, productId, product);
    }
    st.SaveCarts(carts);
    r := Ok(product);
  }

  /** Every cart after deleteProduct: the product's line, if any, taken out with its contribution to the total. */
  function PurgeAll(carts: map<Id, Cart>, productId: Id): (r: map<Id, Cart>)
    ensures r.Keys == carts.Keys
    ensures forall c :: c in carts ==> r[c].email == carts[c].email
  {
    map c | c in carts :: Purge(carts[c], productId)
  }

  /**
   * After the cascade no cart holds the product, each cart that held it lost
   * exactly that line and its price × quantity, and every other line stays.
   */
  lemma PurgeAllLines(carts: map<Id, Cart>, productId: Id)
    requires forall c :: c in carts ==> UniqueLines(carts[c].items)
    ensures var r := PurgeAll(carts, productId);
            forall c :: c in carts ==>
              && !HasLine(r[c].items, productId)
              && (!HasLine(carts[c].items, productId) ==> r[c] == carts[c])
              && (HasLine(carts[c].items, productId) ==>
                    var line := carts[c].items[LineIndex(carts[c].items, productId).value];
                    && r[c].total == carts[c].total - Subtotal(line)
                    && multiset(r[c].items) + multiset{line} == multiset(carts[c].items))
  {
    forall c | c in carts ensures !HasLine(PurgeAll(carts, productId)[c].items, productId) {
      PurgeLines(carts[c], productId);
    }
  }

  /** The cascade keeps every cart's lines well formed, now without the product. */
  lemma PurgeAllWellFormed(carts: map<Id, Cart>, productId: Id, ids: set<Id>)
    requires forall c :: c in carts ==> WellFormedLines(carts[c].items, ids)
    ensures forall c :: c in carts ==> WellFormedLines(PurgeAll(carts, productId)[c].items, ids)
  {
    forall c | c in carts ensures WellFormedLines(PurgeAll(carts, productId)[c].items, ids) {
      if HasLine(carts[c].items, productId) {
        DropWellFormed(carts[c], LineIndex(carts[c].items, productId).value, ids);
      }
    }
  }

  /** On a consistent store the cascade leaves every cart priced against the catalogue without the product. */
  lemma PurgeAllKeepsPriced(carts: map<Id, Cart>, products: map<Id, Product>, productId: Id)
    requires forall c :: c in carts ==> PricedCart(carts[c], products) && UniqueLines(carts[c].items)
    ensures forall c :: c in carts ==> PricedCart(PurgeAll(carts, productId)[c], products - {productId})
  {
    forall c | c in carts ensures PricedCart(PurgeAll(carts, productId)[c], products - {productId}) {
      PurgeKeepsPriced(carts[c], products, productId);
    }
  }

  /**
   * One step of the cascade: the line's price × quantity off the cart's
   * total, then the line out of the cart.
   */
  method PurgeLine(cart: Cart, productId: Id) returns (r: Cart)
    requires LineIndex(cart.items, productId).Some?
    ensures r == Purge(cart, productId)
  {
    var i := LineIndex(cart.items, productId).value;
    var line := cart.items[i];
    r := cart.(total := cart.total - Subtotal(line));
    r := r.(items := RemoveAt(r.items, i));
    assert r == Drop(cart, i);
  }

  /**
   * The cascade loop: for each cart line of the product
   * (cartItemRepository.findByProductId), the owning cart purged of it.
   */
  method PurgeCarts(carts: map<Id, Cart>, productId: Id) returns (r: map<Id, Cart>)
    ensures r == PurgeAll(carts, productId)
  {
    r := carts;
    var holders := set c | c in carts && LineIndex(carts[c].items, productId).Some?;
    while holders != {}
      invariant holders <= carts.Keys && r.Keys == carts.Keys
      invariant forall c :: c in holders ==> r[c] == carts[c] && LineIndex(carts[c].items, productId).Some?
      invariant forall c :: c in carts && c !in holders ==> r[c] == Purge(carts[c], productId)
      decreases holders
    {
      var c :| c in holders;
      var purged := PurgeLine(r[c], productId);
      r := r[c := purged];
      holders := holders - {c};
    }
    PurgedEverywhere(r, carts, productId);
  }

  lemma PurgedEverywhere(r: map<Id, Cart>, carts: map<Id, Cart>, productId: Id)
    requires r.Keys == carts.Keys && forall c :: c in carts ==> r[c] == Purge(carts[c], productId)
    ensures r == PurgeAll(carts, productId)
  {
  }

  /**
   * deleteProduct: the product taken out of every cart, then out of the
   * catalogue.  A missing product changes nothing.
   */
  method DeleteProduct(st: Store, productId: Id) returns (r: Result<Product>)
    requires st.Valid()
    modifies st`products, st`carts
    ensures st.Valid()
    ensures old(st.Consistent()) ==> st.Consistent()
    ensures productId !in old(st.products) ==> r == Err(NotFound("Product", "productId")) && unchanged(st)
    ensures productId in old(st.products) ==>
              && r == Ok(old(st.products)[productId])
              && st.products == old(st.products) - {productId}
              && st.carts == PurgeAll(old(st.carts), productId)
  {
    if productId !in st.products {
      return Err(NotFound("Product", "productId"));
    }
    var product := st.products[productId];
    ghost var products0 := st.products;

    var carts := PurgeCarts(st.carts, productId);
    PurgeAllWellFormed(st.carts, productId, st.products.Keys);
    if st.Consistent() {
      PurgeAllKeepsPriced(st.carts, products0, productId);
    }
    PurgeAllLines(st.carts, productId);
    st.SaveCarts(carts);
    st.RemoveProduct(productId);
    r := Ok(product);
  }
}
