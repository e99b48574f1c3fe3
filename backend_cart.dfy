/** The server-side cart store of the Java backend: `CartService` over
    three repositories, and `CartCleanupScheduler`, which drops carts
    left untouched for too long. The repositories are the maps of one
    `Database` object; times are whole seconds. */
module BackendCarts {
  import opened CartItems

  /** Java `int` arithmetic: the result of `+` wraps into 32 bits. */
  function WrapInt32(x: int): (r: int)
    ensures -0x8000_0000 <= r < 0x8000_0000
    ensures (r - x) % 0x1_0000_0000 == 0
  {
    (x + 0x8000_0000) % 0x1_0000_0000 - 0x8000_0000
  }

  /** Below the top of the range, one more is one more; at the top it
      wraps to the bottom. */
  lemma IncrementWraps(q: int)
    requires -0x8000_0000 <= q < 0x8000_0000
    ensures q < 0x7FFF_FFFF ==> WrapInt32(q + 1) == q + 1
    ensures q == 0x7FFF_FFFF ==> WrapInt32(q + 1) == -0x8000_0000
  {
  }

  datatype CartEntity = CartEntity(id: int, userId: string, lastUpdated: Option<int>)

  datatype CartItemPK = CartItemPK(itemId: string, cartId: int)

  datatype CartItemEntity = CartItemEntity(itemId: string, cartId: int, quantity: int, price: int)

  datatype ProductEntity = ProductEntity(sku: string, price: int)

  datatype BackendError =
    | ProductNotFound(sku: string)    // ProductNotFoundException
    | CartNotFound(userId: string)    // CartNotFoundException

  /** The `Cart` that `getCart` returns. */
  datatype CartView = CartView(userId: string, items: set<CartItemEntity>)

  /** Each cart is stored under its own user, and no two carts share an id. */
  predicate CartsKeyed(carts: map<string, CartEntity>) {
    && (forall u :: u in carts ==> carts[u].userId == u)
    && (forall u, v :: u in carts && v in carts && u != v ==> carts[u].id != carts[v].id)
  }

  /** Each line is stored under its own composite key. */
  predicate ItemsKeyed(cartItems: map<CartItemPK, CartItemEntity>) {
    forall pk :: pk in cartItems ==> cartItems[pk].itemId == pk.itemId && cartItems[pk].cartId == pk.cartId
  }

  class Database {
    /** `CartRepository`, looked up by user id. */
    var carts: map<string, CartEntity>
    /** `CartItemRepository`, by composite key. */
    var cartItems: map<CartItemPK, CartItemEntity>
    /** `ProductRepository`, by sku. */
    var products: map<string, ProductEntity>

    /** One cart per user, cart ids unique, items stored under their own key. */
    predicate Valid()
      reads this
    {
      CartsKeyed(carts) && ItemsKeyed(cartItems)
    }

    constructor (products: map<string, ProductEntity>)
      ensures Valid() && carts == map[] && cartItems == map[] && this.products == products
    {
      carts := map[];
      cartItems := map[];
      this.products := products;
    }
  }

  class CartService {
    const db: Database

    constructor (db: Database)
      ensures this.db == db
    {
      this.db := db;
    }

    /** `addItemToCart`: finds or creates the user's cart (`freshCartId` is
        the id the database assigns, one that no cart and no stored line
        has ever carried), then adds one to the line for the item, or
        creates the line with quantity 1 and the product's price.
        An unknown sku raises `ProductNotFoundException` after the cart
        has been created. */
    method AddItemToCart(username: string, itemId: string, freshCartId: int) returns (r: Outcome<BackendError>)
      requires db.Valid()
      requires forall u :: u in db.carts ==> db.carts[u].id != freshCartId
      requires forall pk :: pk in db.cartItems ==> pk.cartId != freshCartId
      modifies db
      ensures db.Valid()
      ensures db.products == old(db.products)
      ensures username in old(db.carts) ==> db.carts == old(db.carts)
      ensures username !in old(db.carts) ==>
        db.carts == old(db.carts)[username := CartEntity(freshCartId, username, None)]
      ensures username in db.carts
      ensures username !in old(db.carts) && itemId in db.products ==>
        && r == Pass
        && db.cartItems == old(db.cartItems)[CartItemPK(itemId, freshCartId) := CartItemEntity(itemId, freshCartId, 1, db.products[itemId].price)]
      ensures var pk := CartItemPK(itemId, db.carts[username].id);
        && (pk in old(db.cartItems) ==>
              && r == Pass
              && db.cartItems == old(db.cartItems)[pk := old(db.cartItems)[pk].(quantity := WrapInt32(old(db.cartItems)[pk].quantity + 1))])
        && (pk !in old(db.cartItems) && itemId in db.products ==>
              && r == Pass
              && db.cartItems == old(db.cartItems)[pk := CartItemEntity(itemId, pk.cartId, 1, db.products[itemId].price)])
        && (pk !in old(db.cartItems) && itemId !in db.products ==>
              r == Fail(ProductNotFound(itemId)) && db.cartItems == old(db.cartItems))
    {
      var cart: CartEntity;
      if username in db.carts {
        cart := db.carts[username];
      } else {
        cart := CartEntity(freshCartId, username, None);
        db.carts := db.carts[username := cart];
      }
      var pk := CartItemPK(itemId, cart.id);
      if pk in db.cartItems {
        UpdateItemQuantity(db.cartItems[pk], 1);
        r := Pass;
      } else {
        r := AddNewItemToCart(itemId, cart);
      }
    }

    /** `addNewItemToCart`. */
    method AddNewItemToCart(itemId: string, cart: CartEntity) returns (r: Outcome<BackendError>)
      requires db.Valid()
      modifies db`cartItems
      ensures db.Valid()
      ensures itemId !in db.products ==> r == Fail(ProductNotFound(itemId)) && db.cartItems == old(db.cartItems)
      ensures itemId in db.products ==>
        && r == Pass
        && db.cartItems == old(db.cartItems)[CartItemPK(itemId, cart.id) := CartItemEntity(itemId, cart.id, 1, db.products[itemId].price)]
    {
      if itemId !in db.products {
        return Fail(ProductNotFound(itemId));
      }
      var product := db.products[itemId];
      var cartItem := CartItemEntity(itemId, cart.id, 1, product.price);
      db.cartItems := db.cartItems[CartItemPK(itemId, cart.id) := cartItem];
      r := Pass;
    }

    /** `updateItemQuantity`: the stored quantity plus `byCount`, in Java
        `int` arithmetic. */
    method UpdateItemQuantity(item: CartItemEntity, byCount: int)
      requires db.Valid()
      modifies db`cartItems
      ensures db.Valid()
      ensures db.cartItems == old(db.cartItems)[CartItemPK(item.itemId, item.cartId) := item.(quantity := WrapInt32(item.quantity + byCount))]
    {
      SetItemQuantity(item, WrapInt32(item.quantity + byCount));
    }

    /** `setItemQuantity`: saves the item with the new quantity. */
    method SetItemQuantity(item: CartItemEntity, quantity: int)
      requires db.Valid()
      modifies db`cartItems
      ensures db.Valid()
      ensures db.cartItems == old(db.cartItems)[CartItemPK(item.itemId, item.cartId) := item.(quantity := quantity)]
    {
      db.cartItems := db.cartItems[CartItemPK(item.itemId, item.cartId) := item.(quantity := quantity)];
    }

    /** `clearCart`: `deleteByUserId`. */
    method ClearCart(username: string)
      requires db.Valid()
      modifies db`carts
      ensures db.Valid()
      ensures db.carts == old(db.carts) - {username}
    {
      db.carts := db.carts - {username};
    }

    /** `getCart`: the user's cart with the lines stored under its id, or
        `CartNotFoundException`. */
    method GetCart(username: string) returns (r: Result<CartView, BackendError>)
      requires db.Valid()
      ensures username !in db.carts ==> r == Err(CartNotFound(username))
      ensures username in db.carts ==>
        && r.Ok? && r.value.userId == username
        && (forall e :: e in r.value.items <==> e in db.cartItems.Values && e.cartId == db.carts[username].id)
    {
      if username !in db.carts {
        return Err(CartNotFound(username));
      }
      var cart := db.carts[username];
      r := Ok(CartView(cart.userId, set e | e in db.cartItems.Values && e.cartId == cart.id));
    }

    /** `removeItemFromCart`: deletes the line of the user's cart with the
        itemId; a user without a cart changes nothing. */
    method RemoveItemFromCart(username: string, itemId: string)
      requires db.Valid()
      modifies db`cartItems
      ensures db.Valid()
      ensures username !in db.carts ==> db.cartItems == old(db.cartItems)
      ensures username in db.carts ==> db.cartItems == old(db.cartItems) - {CartItemPK(itemId, db.carts[username].id)}
    {
      if username in db.carts {
        var cart := db.carts[username];
        db.cartItems := db.cartItems - {CartItemPK(itemId, cart.id)};
      }
    }
  }

  /** A user who already has a cart adds a known sku the cart does not
      hold yet: the cart is reused and exactly one line, quantity 1 at
      the product's price, is saved. `freshCartId` is never used, since
      no cart is created. */
  method ExistingCartAddScenario(db: Database, username: string, sku: string, freshCartId: int)
    returns (r: Outcome<BackendError>)
    requires db.Valid() && username in db.carts && sku in db.products
    requires CartItemPK(sku, db.carts[username].id) !in db.cartItems
    requires forall u :: u in db.carts ==> db.carts[u].id != freshCartId
    requires forall pk :: pk in db.cartItems ==> pk.cartId != freshCartId
    modifies db
    ensures r == Pass
    ensures db.carts == old(db.carts)
    ensures |db.cartItems| == |old(db.cartItems)| + 1
    ensures var pk := CartItemPK(sku, db.carts[username].id);
      db.cartItems == old(db.cartItems)[pk := CartItemEntity(sku, pk.cartId, 1, old(db.products[sku].price))]
  {
    var service := new CartService(db);
    r := service.AddItemToCart(username, sku, freshCartId);
  }

  /** A user who already has a cart, holding no line for it, adds an
      unknown sku: `ProductNotFoundException`, and no line is saved. */
  method UnknownSkuScenario(db: Database, username: string, sku: string, freshCartId: int)
    returns (r: Outcome<BackendError>)
    requires db.Valid() && username in db.carts && sku !in db.products
    requires CartItemPK(sku, db.carts[username].id) !in db.cartItems
    requires forall u :: u in db.carts ==> db.carts[u].id != freshCartId
    requires forall pk :: pk in db.cartItems ==> pk.cartId != freshCartId
    modifies db
    ensures r == Fail(ProductNotFound(sku))
    ensures db.carts == old(db.carts) && db.cartItems == old(db.cartItems)
  {
    var service := new CartService(db);
    r := service.AddItemToCart(username, sku, freshCartId);
  }

  /** Starting from an empty store, two adds of the same known sku create
      the user's cart and one line on the first add, and raise that line's
      quantity to 2 on the second without creating a second line. */
  method AddTwiceScenario(db: Database, username: string, sku: string, freshCartId: int)
    returns (first: Outcome<BackendError>, second: Outcome<BackendError>)
    requires db.Valid() && db.carts == map[] && db.cartItems == map[] && sku in db.products
    modifies db
    ensures first == Pass && second == Pass
    ensures db.products == old(db.products)
    ensures db.cartItems == map[CartItemPK(sku, freshCartId) := CartItemEntity(sku, freshCartId, 2, db.products[sku].price)]
  {
    var service := new CartService(db);
    first := service.AddItemToCart(username, sku, freshCartId);
    second := service.AddItemToCart(username, sku, freshCartId + 1);
    IncrementWraps(1);
  }

  // ---------------------------------------------------------------------
  // Expiry of inactive carts

  /** The seconds in an hour. */
  const SECONDS_PER_HOUR := 3600

  /** The default of `cart.expiration.hours`. */
  const DEFAULT_EXPIRATION_HOURS := 24

  /** `lastUpdated != null && lastUpdated.isBefore(threshold)`. */
  predicate Expired(cart: CartEntity, threshold: int) {
    cart.lastUpdated.Some? && cart.lastUpdated.value < threshold
  }

  /** The carts a cleanup keeps: all but the expired ones, unchanged. */
  function Survivors(carts: map<string, CartEntity>, threshold: int): (r: map<string, CartEntity>)
    ensures forall u :: u in r <==> u in carts && !Expired(carts[u], threshold)
    ensures forall u :: u in r ==> r[u] == carts[u]
  {
    map u | u in carts && !Expired(carts[u], threshold) :: carts[u]
  }

  /** A cart never updated is never removed; one updated exactly at the
      threshold stays, since the comparison is strict. */
  lemma NullAndBoundarySurvive(carts: map<string, CartEntity>, threshold: int, u: string)
    requires u in carts && (carts[u].lastUpdated == None || carts[u].lastUpdated == Some(threshold))
    ensures u in Survivors(carts, threshold) && Survivors(carts, threshold)[u] == carts[u]
  {
  }

  /** A cleanup keeps the carts keyed by their users with distinct ids. */
  lemma SurvivorsKeyed(carts: map<string, CartEntity>, threshold: int)
    requires CartsKeyed(carts)
    ensures CartsKeyed(Survivors(carts, threshold))
  {
  }

  /** A second cleanup with the same threshold removes nothing. */
  lemma CleanupIdempotent(carts: map<string, CartEntity>, threshold: int)
    ensures Survivors(Survivors(carts, threshold), threshold) == Survivors(carts, threshold)
  {
    var once := Survivors(carts, threshold);
    assert Survivors(once, threshold).Keys == once.Keys;
  }

  /** A later threshold removes at least the carts an earlier one does. */
  lemma LaterThresholdRemovesMore(carts: map<string, CartEntity>, t1: int, t2: int)
    requires t1 <= t2
    ensures Survivors(carts, t2).Keys <= Survivors(carts, t1).Keys
  {
  }

  /** Deleting one more of the expired carts. */
  lemma DeleteOneMore(carts: map<string, CartEntity>, all: set<string>, expired: set<string>, u: string)
    requires u in expired && expired <= all
    ensures (carts - (all - expired)) - {u} == carts - (all - (expired - {u}))
  {
    assert all - (expired - {u}) == (all - expired) + {u};
  }

  /** Deleting the expired carts leaves the survivors. */
  lemma ExpiredRemoved(carts: map<string, CartEntity>, threshold: int, expired: set<string>)
    requires forall u :: u in expired <==> u in carts && Expired(carts[u], threshold)
    ensures carts - expired == Survivors(carts, threshold)
  {
    assert (carts - expired).Keys == Survivors(carts, threshold).Keys;
  }

  class CartCleanupScheduler {
    const db: Database
    const expirationHours: int

    constructor (db: Database)
      ensures this.db == db && expirationHours == DEFAULT_EXPIRATION_HOURS
    {
      this.db := db;
      expirationHours := DEFAULT_EXPIRATION_HOURS;
    }

    /** A scheduler with `cart.expiration.hours` configured. */
    constructor Configured(db: Database, hours: int)
      ensures this.db == db && expirationHours == hours
    {
      this.db := db;
      expirationHours := hours;
    }

    /** `cleanupInactiveCarts`: deletes, one by one, every cart whose last
        update is before `now` minus the expiration window. */
    method CleanupInactiveCarts(now: int)
      requires db.Valid()
      modifies db`carts
      ensures db.Valid()
      ensures db.carts == Survivors(old(db.carts), now - expirationHours * SECONDS_PER_HOUR)
    {
      var threshold := now - expirationHours * SECONDS_PER_HOUR;
      var expired := set u | u in db.carts && Expired(db.carts[u], threshold);
      ghost var all := expired;
      while expired != {}
        invariant expired <= all
        invariant db.carts == old(db.carts) - (all - expired)
        decreases |expired|
      {
        var u :| u in expired;
        DeleteOneMore(old(db.carts), all, expired, u);
        db.carts := db.carts - {u};
        expired := expired - {u};
      }
      assert all - expired == all;
      ExpiredRemoved(old(db.carts), threshold, all);
      SurvivorsKeyed(old(db.carts), threshold);
    }
  }
}
