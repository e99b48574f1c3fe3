/** The client cart synchroniser (`DataManager`): an event bus, an
    online/offline flag pair, offline edits to the cart cached in the
    browser's local storage, and a durable FIFO queue of pending changes
    replayed with a retry counter.

    Every asynchronous method is one atomic step. The network is not
    modelled as a server: each remote call's outcome is a parameter
    (`reply`, `ok`, `fetched`, `results`), and the remote mutations the
    manager performs are recorded, in order, in `remoteCalls`. Local
    storage is the map `storage` from key to parsed value. Callbacks are
    identified by an opaque `Handler`; each invocation `emit` makes is
    recorded, in order, in `delivered`. */
module DataManagerSync {
  import opened CartItems

  const PRODUCTS_KEY := "celfocus_products"
  const CART_ITEMS_KEY := "celfocus_cart_items"
  const PENDING_CHANGES_KEY := "celfocus_pending_changes"

  const PRODUCTS_UPDATED := "products_updated"
  const CART_UPDATED := "cart_updated"
  const OFFLINE_MODE := "offline_mode"
  const ONLINE_MODE := "online_mode"

  /** A change is re-queued after a failed replay only while its retry
      counter stays below this. */
  const MAX_RETRIES := 3

  datatype Product = Product(sku: string, name: string, description: string, price: int, imageUrl: string)

  /** The four kinds of pending change with their payloads. */
  datatype Change =
    | AddItemChange(item: AddRequest)
    | UpdateItemChange(itemId: string, quantity: int)
    | RemoveItemChange(itemId: string)
    | ClearCartChange

  datatype PendingChange = PendingChange(id: string, change: Change, timestamp: int, retryCount: nat)

  /** A value held in local storage, as read back from its JSON text. */
  datatype Stored =
    | StoredProducts(products: seq<Product>)
    | StoredCart(items: seq<CartItem>)
    | StoredChanges(changes: seq<PendingChange>)

  /** The identity of a registered callback (callbacks compare by reference). */
  type Handler = nat

  datatype Payload = NoData | CartData(items: seq<CartItem>) | ProductData(products: seq<Product>)

  /** One call of one callback by `emit`. */
  datatype Delivery = Delivery(handler: Handler, event: string, payload: Payload)

  datatype SyncError =
    | RemoteFailure        // the remote call threw; the error is re-thrown
    | ItemNotFoundInCart   // 'Item not found in cart'

  // ---------------------------------------------------------------------
  // Storage reads (`loadFromStorage(key) || []`)

  function CachedCart(storage: map<string, Stored>): seq<CartItem> {
    if CART_ITEMS_KEY in storage && storage[CART_ITEMS_KEY].StoredCart? then storage[CART_ITEMS_KEY].items else []
  }

  function CachedProducts(storage: map<string, Stored>): seq<Product> {
    if PRODUCTS_KEY in storage && storage[PRODUCTS_KEY].StoredProducts? then storage[PRODUCTS_KEY].products else []
  }

  function StoredQueue(storage: map<string, Stored>): seq<PendingChange> {
    if PENDING_CHANGES_KEY in storage && storage[PENDING_CHANGES_KEY].StoredChanges? then storage[PENDING_CHANGES_KEY].changes else []
  }

  // ---------------------------------------------------------------------
  // Event bus

  function HandlersOf(listeners: map<string, seq<Handler>>, event: string): seq<Handler> {
    if event in listeners then listeners[event] else []
  }

  /** The calls `emit(event, payload)` makes, one per handler, in order. */
  function Deliveries(handlers: seq<Handler>, event: string, payload: Payload): seq<Delivery> {
    seq(|handlers|, i requires 0 <= i < |handlers| => Delivery(handlers[i], event, payload))
  }

  /** `listeners.splice(listeners.indexOf(callback), 1)` when present. */
  function WithoutFirst(handlers: seq<Handler>, h: Handler): (r: seq<Handler>)
    ensures h !in handlers ==> r == handlers
    ensures h in handlers ==> |r| == |handlers| - 1
    ensures multiset(r) == multiset(handlers) - multiset{h}
  {
    if handlers == [] then []
    else if handlers[0] == h then
      assert handlers == [h] + handlers[1..];
      handlers[1..]
    else
      assert handlers == [handlers[0]] + handlers[1..];
      [handlers[0]] + WithoutFirst(handlers[1..], h)
  }

  /** `indexOf`: the first position of a present handler. */
  function FirstPosition(handlers: seq<Handler>, h: Handler): (i: nat)
    requires h in handlers
    ensures i < |handlers| && handlers[i] == h && h !in handlers[..i]
  {
    if handlers[0] == h then 0
    else
      var k := FirstPosition(handlers[1..], h);
      assert handlers[..k + 1] == [handlers[0]] + handlers[1..][..k];
      k + 1
  }

  /** Splicing position `k + 1` out of a sequence is splicing position `k`
      out of its tail and putting the head back. */
  lemma SpliceCons(s: seq<Handler>, k: nat)
    requires k + 1 < |s|
    ensures [s[0]] + (s[1..][..k] + s[1..][k + 1..]) == s[..k + 1] + s[k + 2..]
  {
    assert s[..k + 1] == [s[0]] + s[1..][..k];
    assert s[k + 2..] == s[1..][k + 1..];
  }

  /** `off` removes exactly the first reference-equal registration and
      keeps the others in order. */
  lemma {:induction false} WithoutFirstSplits(handlers: seq<Handler>, h: Handler)
    requires h in handlers
    ensures var i := FirstPosition(handlers, h);
      WithoutFirst(handlers, h) == handlers[..i] + handlers[i + 1..]
  {
    if handlers[0] == h {
      assert handlers[..0] == [];
    } else {
      WithoutFirstSplits(handlers[1..], h);
      SpliceCons(handlers, FirstPosition(handlers[1..], h));
    }
  }

  /** `listeners.splice(listeners.indexOf(callback), 1)` for a registered
      callback. */
  method SpliceOut(listeners: seq<Handler>, callback: Handler) returns (remaining: seq<Handler>)
    requires callback in listeners
    ensures remaining == WithoutFirst(listeners, callback)
  {
    var index := FirstPosition(listeners, callback);
    remaining := listeners[..index] + listeners[index + 1..];
    WithoutFirstSplits(listeners, callback);
  }

  // ---------------------------------------------------------------------
  // Offline cart edits

  /** The line an offline add appends for an itemId not yet cached. */
  function NewCartLine(item: AddRequest): CartItem {
    CartItem(None, item.itemId, QuantityOrOne(item.quantity), item.price, item.name, item.imageUrl)
  }

  /** Offline `addToCart` on the cached lines: the first line with the
      itemId grows by `quantity || 1`, otherwise one line is appended.
      The second component is the line the source returns. */
  function MergeAdd(cart: seq<CartItem>, item: AddRequest): (r: (seq<CartItem>, CartItem))
    ensures r.1.itemId == item.itemId && r.1 in r.0
    ensures CountOf(r.0, item.itemId) == if CountOf(cart, item.itemId) == 0 then 1 else CountOf(cart, item.itemId)
    ensures QuantityOf(r.0, item.itemId) == QuantityOf(cart, item.itemId) + QuantityOrOne(item.quantity)
    ensures WithoutItem(r.0, item.itemId) == WithoutItem(cart, item.itemId)
    ensures forall id :: id != item.itemId ==> CountOf(r.0, id) == CountOf(cart, id)
    ensures CountOf(cart, item.itemId) == 0 ==> r == (cart + [NewCartLine(item)], NewCartLine(item))
    ensures CountOf(cart, item.itemId) > 0 ==> |r.0| == |cart|
    ensures CountOf(cart, item.itemId) > 0 ==>
      var i := IndexOf(cart, item.itemId);
      0 <= i && r.1 == cart[i].(quantity := cart[i].quantity + QuantityOrOne(item.quantity)) && r.0 == cart[i := r.1]
  {
    var i := IndexOf(cart, item.itemId);
    IndexOfIffCount(cart, item.itemId);
    if i >= 0 then
      var line := cart[i].(quantity := cart[i].quantity + QuantityOrOne(item.quantity));
      ReplaceLine(cart, i, line, item.itemId);
      assert line == cart[i := line][i];
      (cart[i := line], line)
    else
      AppendLine(cart, NewCartLine(item));
      (cart + [NewCartLine(item)], NewCartLine(item))
  }

  /** Offline adds keep "at most one line per itemId". */
  lemma MergeAddKeepsUnique(cart: seq<CartItem>, item: AddRequest)
    requires UniqueIds(cart)
    ensures UniqueIds(MergeAdd(cart, item).0)
  {
    var r := MergeAdd(cart, item).0;
    UniqueIdsIffCount(cart);
    forall id ensures CountOf(r, id) <= 1 {
      assert CountOf(cart, id) <= 1;
    }
    UniqueIdsIffCount(r);
  }

  /** Offline adds of the given requests, one after the other. */
  function MergeAll(cart: seq<CartItem>, items: seq<AddRequest>): seq<CartItem>
    decreases |items|
  {
    if items == [] then cart else MergeAll(MergeAdd(cart, items[0]).0, items[1..])
  }

  /** Sum of the quantities `quantity || 1` the requests ask for. */
  function RequestedTotal(items: seq<AddRequest>): int {
    if items == [] then 0 else QuantityOrOne(items[0].quantity) + RequestedTotal(items[1..])
  }

  /** Any number of offline adds of one itemId to a cart without it leave
      exactly one line for it, holding the sum of the requested
      quantities, and no other line changes. */
  lemma {:induction false} RepeatedAddsMerge(cart: seq<CartItem>, itemId: string, items: seq<AddRequest>)
    requires items != []
    requires forall k :: 0 <= k < |items| ==> items[k].itemId == itemId
    requires CountOf(cart, itemId) <= 1
    ensures CountOf(MergeAll(cart, items), itemId) == 1
    ensures QuantityOf(MergeAll(cart, items), itemId) == QuantityOf(cart, itemId) + RequestedTotal(items)
    ensures WithoutItem(MergeAll(cart, items), itemId) == WithoutItem(cart, itemId)
    decreases |items|
  {
    var once := MergeAdd(cart, items[0]).0;
    if |items| > 1 {
      RepeatedAddsMerge(once, itemId, items[1..]);
    } else {
      assert items[1..] == [];
    }
  }

  /** Offline `updateCartItem` on the cached lines: the first line with the
      itemId gets the quantity; `None` when no line has it. The second
      component is the line the source returns. */
  function SetFirstQuantity(cart: seq<CartItem>, itemId: string, quantity: int): (r: Option<(seq<CartItem>, CartItem)>)
    ensures r.None? <==> CountOf(cart, itemId) == 0
    ensures r.Some? ==>
      && |r.value.0| == |cart|
      && r.value.1 in r.value.0
      && r.value.1.itemId == itemId && r.value.1.quantity == quantity
      && WithoutItem(r.value.0, itemId) == WithoutItem(cart, itemId)
      && (forall id :: CountOf(r.value.0, id) == CountOf(cart, id))
      && (UniqueIds(cart) ==> QuantityOf(r.value.0, itemId) == quantity)
    ensures r.Some? ==>
      var i := IndexOf(cart, itemId);
      0 <= i && r.value == (cart[i := cart[i].(quantity := quantity)], cart[i].(quantity := quantity))
  {
    var i := IndexOf(cart, itemId);
    IndexOfIffCount(cart, itemId);
    if i < 0 then None
    else
      var line := cart[i].(quantity := quantity);
      ReplaceLine(cart, i, line, itemId);
      assert line == cart[i := line][i];
      if UniqueIds(cart) then
        UniqueIdsIffCount(cart);
        SingleLineQuantity(cart, i, itemId);
        Some((cart[i := line], line))
      else
        Some((cart[i := line], line))
  }

  // ---------------------------------------------------------------------
  // Replay of the pending queue

  function Succeeded(results: seq<bool>, i: int): bool {
    0 <= i < |results| && results[i]
  }

  function Retried(c: PendingChange): PendingChange {
    c.(retryCount := c.retryCount + 1)
  }

  /** What one replayed change puts back on the queue. */
  function ReplayStep(c: PendingChange, ok: bool): seq<PendingChange> {
    if !ok && c.retryCount + 1 < MAX_RETRIES then [Retried(c)] else []
  }

  /** The queue a replay of `changes` leaves, where `results[i]` says
      whether the i-th replay succeeded (a missing outcome is a failure). */
  function Requeue(changes: seq<PendingChange>, results: seq<bool>): seq<PendingChange>
    decreases |changes|
  {
    if changes == [] then []
    else
      var n := |changes| - 1;
      Requeue(changes[..n], results) + ReplayStep(changes[n], Succeeded(results, n))
  }

  /** The positions of the changes that are put back. */
  function KeptPositions(changes: seq<PendingChange>, results: seq<bool>): seq<nat>
    decreases |changes|
  {
    if changes == [] then []
    else
      var n := |changes| - 1;
      KeptPositions(changes[..n], results) + (if !Succeeded(results, n) && changes[n].retryCount + 1 < MAX_RETRIES then [n] else [])
  }

  function ChangesOf(changes: seq<PendingChange>): seq<Change> {
    seq(|changes|, i requires 0 <= i < |changes| => changes[i].change)
  }

  /** Replaying one more change of a prefix adds its replay step and its
      remote call. */
  lemma ReplayPrefixStep(changes: seq<PendingChange>, k: nat, results: seq<bool>)
    requires k < |changes|
    ensures Requeue(changes[..k + 1], results) == Requeue(changes[..k], results) + ReplayStep(changes[k], Succeeded(results, k))
    ensures ChangesOf(changes[..k + 1]) == ChangesOf(changes[..k]) + [changes[k].change]
  {
    assert changes[..k + 1][..k] == changes[..k];
  }

  /** The positions kept are exactly the failed ones below the cap. */
  lemma {:induction false} KeptExactly(changes: seq<PendingChange>, results: seq<bool>)
    ensures forall p :: p in KeptPositions(changes, results) ==> p < |changes|
    ensures forall i :: 0 <= i < |changes| ==>
      (i in KeptPositions(changes, results) <==> !Succeeded(results, i) && changes[i].retryCount + 1 < MAX_RETRIES)
    decreases |changes|
  {
    if changes != [] {
      var n := |changes| - 1;
      var prefix := changes[..n];
      KeptExactly(prefix, results);
      var kp := KeptPositions(prefix, results);
      var keep := !Succeeded(results, n) && changes[n].retryCount + 1 < MAX_RETRIES;
      assert KeptPositions(changes, results) == kp + (if keep then [n] else []);
      forall i | 0 <= i < n ensures prefix[i] == changes[i] {}
    }
  }

  predicate Increasing(s: seq<nat>) {
    forall j, k :: 0 <= j < k < |s| ==> s[j] < s[k]
  }

  /** The positions kept are listed in increasing order. */
  lemma {:induction false} KeptSorted(changes: seq<PendingChange>, results: seq<bool>)
    ensures Increasing(KeptPositions(changes, results))
    decreases |changes|
  {
    if changes != [] {
      var n := |changes| - 1;
      var prefix := changes[..n];
      KeptSorted(prefix, results);
      KeptExactly(prefix, results);
      var kp := KeptPositions(prefix, results);
      var keep := !Succeeded(results, n) && changes[n].retryCount + 1 < MAX_RETRIES;
      var kept := kp + (if keep then [n] else []);
      assert KeptPositions(changes, results) == kept;
      assert Increasing(kp);
      forall j, k | 0 <= j < k < |kept| ensures kept[j] < kept[k] {
        assert kept[j] == kp[j] && kp[j] in kp;
        assert kp[j] < n;
        if k < |kp| {
          assert kept[k] == kp[k];
          assert kp[j] < kp[k];
        } else {
          assert kept[k] == n;
        }
      }
    }
  }

  /** The j-th change put back is the change at the j-th kept position,
      with its counter incremented. */
  lemma {:induction false} RequeuePairs(changes: seq<PendingChange>, results: seq<bool>)
    ensures var kept, q := KeptPositions(changes, results), Requeue(changes, results);
      && |kept| == |q|
      && (forall j :: 0 <= j < |kept| ==> kept[j] < |changes| && q[j] == Retried(changes[kept[j]]))
    decreases |changes|
  {
    if changes != [] {
      var n := |changes| - 1;
      var prefix := changes[..n];
      RequeuePairs(prefix, results);
      var kp, qp := KeptPositions(prefix, results), Requeue(prefix, results);
      var keep := !Succeeded(results, n) && changes[n].retryCount + 1 < MAX_RETRIES;
      var kept, q := kp + (if keep then [n] else []), qp + (if keep then [Retried(changes[n])] else []);
      assert KeptPositions(changes, results) == kept;
      assert Requeue(changes, results) == q;
      forall j | 0 <= j < |kept| ensures kept[j] < |changes| && q[j] == Retried(changes[kept[j]]) {
        if j < |kp| {
          assert kept[j] == kp[j] && q[j] == qp[j] && prefix[kp[j]] == changes[kp[j]];
        }
      }
    }
  }

  /** The replayed queue holds, in their original relative order, exactly
      the changes whose replay failed and whose incremented counter is
      still below the cap, each with its counter incremented once. */
  lemma RequeueSelects(changes: seq<PendingChange>, results: seq<bool>)
    ensures var kept, q := KeptPositions(changes, results), Requeue(changes, results);
      && |kept| == |q|
      && (forall j :: 0 <= j < |kept| ==> kept[j] < |changes| && q[j] == Retried(changes[kept[j]]))
      && (forall j, k :: 0 <= j < k < |kept| ==> kept[j] < kept[k])
      && (forall i :: 0 <= i < |changes| ==>
            (i in kept <==> !Succeeded(results, i) && changes[i].retryCount + 1 < MAX_RETRIES))
  {
    RequeuePairs(changes, results);
    KeptSorted(changes, results);
    KeptExactly(changes, results);
  }

  /** A replay never lengthens the queue. */
  lemma {:induction false} RequeueShorter(changes: seq<PendingChange>, results: seq<bool>)
    ensures |Requeue(changes, results)| <= |changes|
    decreases |changes|
  {
    if changes != [] {
      RequeueShorter(changes[..|changes| - 1], results);
    }
  }

  /** Every change left on the queue by a replay has failed at least once
      and is below the retry cap. */
  lemma {:induction false} RequeueBelowCap(changes: seq<PendingChange>, results: seq<bool>)
    ensures forall c :: c in Requeue(changes, results) ==> 1 <= c.retryCount < MAX_RETRIES
    decreases |changes|
  {
    if changes != [] {
      RequeueBelowCap(changes[..|changes| - 1], results);
    }
  }

  /** When every replay succeeds the queue is emptied. */
  lemma {:induction false} RequeueAllSucceed(changes: seq<PendingChange>, results: seq<bool>)
    requires |results| >= |changes| && forall i :: 0 <= i < |changes| ==> results[i]
    ensures Requeue(changes, results) == []
    decreases |changes|
  {
    if changes != [] {
      RequeueAllSucceed(changes[..|changes| - 1], results);
    }
  }

  /** A fresh change that fails three replays in a row is gone after the
      third: it is kept after the first and second with counters 1 and 2. */
  lemma ThirdFailureDrops(c: PendingChange)
    requires c.retryCount == 0
    ensures Requeue([c], [false]) == [Retried(c)]
    ensures Requeue([Retried(c)], [false]) == [Retried(Retried(c))]
    ensures Requeue([Retried(Retried(c))], [false]) == []
  {
    assert [c][..0] == [];
    assert [Retried(c)][..0] == [];
    assert [Retried(Retried(c))][..0] == [];
  }

  // ---------------------------------------------------------------------
  // What a cart fetch does (`getCartItems`)

  /** The lines `getCartItems` returns: the fetched ones when online and the
      fetch succeeded, the cached ones (or []) otherwise. */
  function FetchedCart(online: bool, storage: map<string, Stored>, fetched: Option<seq<CartItem>>): seq<CartItem> {
    if online && fetched.Some? then fetched.value else CachedCart(storage)
  }

  function AfterCartFetch(online: bool, storage: map<string, Stored>, fetched: Option<seq<CartItem>>): map<string, Stored> {
    if online && fetched.Some? then storage[CART_ITEMS_KEY := StoredCart(fetched.value)] else storage
  }

  function CartFetchDeliveries(listeners: map<string, seq<Handler>>, online: bool, fetched: Option<seq<CartItem>>): seq<Delivery> {
    if online && fetched.Some? then Deliveries(HandlersOf(listeners, CART_UPDATED), CART_UPDATED, CartData(fetched.value)) else []
  }

  /** `refreshCartData`: a fetch, then one more CART_UPDATED with its result. */
  function RefreshDeliveries(listeners: map<string, seq<Handler>>, online: bool, storage: map<string, Stored>, fetched: Option<seq<CartItem>>): seq<Delivery> {
    CartFetchDeliveries(listeners, online, fetched)
      + Deliveries(HandlersOf(listeners, CART_UPDATED), CART_UPDATED, CartData(FetchedCart(online, storage, fetched)))
  }

  class DataManager {
    var isOnline: bool
    var wasOffline: bool
    var isInitialized: bool
    var pendingChanges: seq<PendingChange>
    var eventListeners: map<string, seq<Handler>>
    /** The browser's local storage. */
    var storage: map<string, Stored>
    /** Every callback invocation made by `emit`, in order. */
    var delivered: seq<Delivery>
    /** Every remote mutation performed (`performAddToCart`, ...), in order. */
    var remoteCalls: seq<Change>

    /** The manager as created, over whatever local storage already holds. */
    constructor (browserStorage: map<string, Stored>)
      ensures isOnline && !wasOffline && !isInitialized
      ensures pendingChanges == [] && eventListeners == map[]
      ensures storage == browserStorage && delivered == [] && remoteCalls == []
    {
      isOnline := true;
      wasOffline := false;
      isInitialized := false;
      pendingChanges := [];
      eventListeners := map[];
      storage := browserStorage;
      delivered := [];
      remoteCalls := [];
    }

    /** Samples the connectivity flag and loads the stored queue, once. */
    method Initialize(navigatorOnLine: bool)
      modifies this`isOnline, this`wasOffline, this`pendingChanges, this`isInitialized
      ensures isInitialized
      ensures old(isInitialized) ==>
        isOnline == old(isOnline) && wasOffline == old(wasOffline) && pendingChanges == old(pendingChanges)
      ensures !old(isInitialized) ==>
        isOnline == navigatorOnLine && !wasOffline && pendingChanges == StoredQueue(storage)
    {
      if isInitialized {
        return;
      }
      isOnline := navigatorOnLine;
      wasOffline := false;
      LoadPendingChanges();
      isInitialized := true;
    }

    method LoadPendingChanges()
      modifies this`pendingChanges
      ensures pendingChanges == StoredQueue(storage)
    {
      pendingChanges := StoredQueue(storage);
    }

    // -------------------------------------------------------------------
    // Event bus

    method On(event: string, callback: Handler)
      modifies this`eventListeners
      ensures eventListeners == old(eventListeners)[event := HandlersOf(old(eventListeners), event) + [callback]]
    {
      if event !in eventListeners {
        eventListeners := eventListeners[event := []];
      }
      eventListeners := eventListeners[event := eventListeners[event] + [callback]];
    }

    method Off(event: string, callback: Handler)
      modifies this`eventListeners
      ensures event in old(eventListeners) ==>
        eventListeners == old(eventListeners)[event := WithoutFirst(old(eventListeners)[event], callback)]
      ensures event !in old(eventListeners) || callback !in old(eventListeners)[event] ==>
        eventListeners == old(eventListeners)
    {
      if event in eventListeners {
        var listeners := eventListeners[event];
        if callback in listeners {
          var remaining := SpliceOut(listeners, callback);
          eventListeners := eventListeners[event := remaining];
        } else {
          assert eventListeners[event := WithoutFirst(listeners, callback)] == eventListeners;
        }
      }
    }

    /** Calls every handler registered for the event, in registration order. */
    method Emit(event: string, payload: Payload)
      modifies this`delivered
      ensures delivered == old(delivered) + Deliveries(HandlersOf(eventListeners, event), event, payload)
    {
      var listeners := HandlersOf(eventListeners, event);
      var k := 0;
      while k < |listeners|
        invariant 0 <= k <= |listeners|
        invariant delivered == old(delivered) + Deliveries(listeners[..k], event, payload)
      {
        assert Deliveries(listeners[..k + 1], event, payload)
            == Deliveries(listeners[..k], event, payload) + [Delivery(listeners[k], event, payload)];
        delivered := delivered + [Delivery(listeners[k], event, payload)];
        k := k + 1;
      }
      assert listeners[..k] == listeners;
    }

    // -------------------------------------------------------------------
    // Connectivity signals

    /** The environment's `online` signal. */
    method HandleOnline(results: seq<bool>, refetch: Option<seq<CartItem>>)
      requires isInitialized
      modifies this`isOnline, this`pendingChanges, this`storage, this`delivered, this`remoteCalls
      ensures isOnline
      ensures old(isOnline) ==>
        && pendingChanges == old(pendingChanges) && storage == old(storage)
        && delivered == old(delivered) && remoteCalls == old(remoteCalls)
      ensures !old(isOnline) && old(pendingChanges) == [] ==>
        && pendingChanges == [] && storage == old(storage) && remoteCalls == old(remoteCalls)
        && delivered == old(delivered) + Deliveries(HandlersOf(eventListeners, ONLINE_MODE), ONLINE_MODE, NoData)
      ensures !old(isOnline) && old(pendingChanges) != [] ==>
        && pendingChanges == Requeue(old(pendingChanges), results)
        && remoteCalls == old(remoteCalls) + ChangesOf(old(pendingChanges))
        && storage == AfterCartFetch(true, old(storage)[PENDING_CHANGES_KEY := StoredChanges(pendingChanges)], refetch)
        && delivered == old(delivered)
             + Deliveries(HandlersOf(eventListeners, ONLINE_MODE), ONLINE_MODE, NoData)
             + RefreshDeliveries(eventListeners, true, old(storage), refetch)
    {
      var wasOffline := !isOnline;
      isOnline := true;
      if wasOffline {
        Emit(ONLINE_MODE, NoData);
        SyncPendingChanges(results, refetch);
      }
    }

    /** The environment's `offline` signal; not de-duplicated. */
    method HandleOffline()
      requires isInitialized
      modifies this`isOnline, this`wasOffline, this`delivered
      ensures !isOnline && wasOffline
      ensures delivered == old(delivered) + Deliveries(HandlersOf(eventListeners, OFFLINE_MODE), OFFLINE_MODE, NoData)
    {
      isOnline := false;
      wasOffline := true;
      Emit(OFFLINE_MODE, NoData);
    }

    // -------------------------------------------------------------------
    // Reads with cache fallback

    method GetProducts(fetched: Option<seq<Product>>) returns (products: seq<Product>)
      modifies this`storage, this`delivered
      ensures isOnline && fetched.Some? ==>
        && products == fetched.value
        && storage == old(storage)[PRODUCTS_KEY := StoredProducts(products)]
        && delivered == old(delivered) + Deliveries(HandlersOf(eventListeners, PRODUCTS_UPDATED), PRODUCTS_UPDATED, ProductData(products))
      ensures !(isOnline && fetched.Some?) ==>
        products == CachedProducts(old(storage)) && storage == old(storage) && delivered == old(delivered)
    {
      if isOnline && fetched.Some? {
        products := fetched.value;
        storage := storage[PRODUCTS_KEY := StoredProducts(products)];
        Emit(PRODUCTS_UPDATED, ProductData(products));
      } else {
        products := CachedProducts(storage);
      }
    }

    method GetCartItems(fetched: Option<seq<CartItem>>) returns (items: seq<CartItem>)
      modifies this`storage, this`delivered
      ensures items == FetchedCart(isOnline, old(storage), fetched)
      ensures storage == AfterCartFetch(isOnline, old(storage), fetched)
      ensures delivered == old(delivered) + CartFetchDeliveries(eventListeners, isOnline, fetched)
    {
      if isOnline && fetched.Some? {
        items := fetched.value;
        storage := storage[CART_ITEMS_KEY := StoredCart(items)];
        Emit(CART_UPDATED, CartData(items));
      } else {
        items := CachedCart(storage);
      }
    }

    method RefreshCartData(fetched: Option<seq<CartItem>>)
      modifies this`storage, this`delivered
      ensures storage == AfterCartFetch(isOnline, old(storage), fetched)
      ensures delivered == old(delivered) + RefreshDeliveries(eventListeners, isOnline, old(storage), fetched)
    {
      var items := GetCartItems(fetched);
      Emit(CART_UPDATED, CartData(items));
    }

    method RefreshAllData(productsFetched: Option<seq<Product>>, cartFetched: Option<seq<CartItem>>)
      modifies this`storage, this`delivered
      ensures storage == AfterCartFetch(isOnline,
        (if isOnline && productsFetched.Some? then old(storage)[PRODUCTS_KEY := StoredProducts(productsFetched.value)] else old(storage)),
        cartFetched)
      ensures delivered == old(delivered)
        + (if isOnline && productsFetched.Some?
           then Deliveries(HandlersOf(eventListeners, PRODUCTS_UPDATED), PRODUCTS_UPDATED, ProductData(productsFetched.value))
           else [])
        + CartFetchDeliveries(eventListeners, isOnline, cartFetched)
    {
      var _ := GetProducts(productsFetched);
      var _ := GetCartItems(cartFetched);
    }

    // -------------------------------------------------------------------
    // Cart mutations

    method AddToCart(item: AddRequest, changeId: string, now: int, reply: Option<CartItem>, refetch: Option<seq<CartItem>>)
      returns (r: Result<CartItem, SyncError>)
      modifies this`pendingChanges, this`storage, this`delivered, this`remoteCalls
      ensures isOnline ==> remoteCalls == old(remoteCalls) + [AddItemChange(item)]
      ensures isOnline && reply.Some? ==>
        && r == Ok(reply.value)
        && pendingChanges == old(pendingChanges)
        && storage == AfterCartFetch(true, old(storage), refetch)
        && delivered == old(delivered) + RefreshDeliveries(eventListeners, true, old(storage), refetch)
      ensures isOnline && reply.None? ==>
        && r == Err(RemoteFailure)
        && pendingChanges == old(pendingChanges) + [PendingChange(changeId, AddItemChange(item), now, 0)]
        && storage == old(storage)[PENDING_CHANGES_KEY := StoredChanges(pendingChanges)]
        && CachedCart(storage) == CachedCart(old(storage))
        && delivered == old(delivered)
      ensures !isOnline ==>
        && remoteCalls == old(remoteCalls)
        && pendingChanges == old(pendingChanges) + [PendingChange(changeId, AddItemChange(item), now, 0)]
        && var merged := MergeAdd(CachedCart(old(storage)), item);
           && storage == old(storage)[PENDING_CHANGES_KEY := StoredChanges(pendingChanges)][CART_ITEMS_KEY := StoredCart(merged.0)]
           && delivered == old(delivered) + Deliveries(HandlersOf(eventListeners, CART_UPDATED), CART_UPDATED, CartData(merged.0))
           && r == Ok(merged.1)
    {
      var change := PendingChange(changeId, AddItemChange(item), now, 0);
      if isOnline {
        remoteCalls := remoteCalls + [AddItemChange(item)];
        if reply.Some? {
          RefreshCartData(refetch);
          r := Ok(reply.value);
        } else {
          AddPendingChange(change);
          r := Err(RemoteFailure);
        }
      } else {
        AddPendingChange(change);
        var currentCart := CachedCart(storage);
        var merged := MergeAdd(currentCart, item);
        storage := storage[CART_ITEMS_KEY := StoredCart(merged.0)];
        Emit(CART_UPDATED, CartData(merged.0));
        r := Ok(merged.1);
      }
    }

    method UpdateCartItem(itemId: string, quantity: int, changeId: string, now: int, reply: Option<CartItem>, refetch: Option<seq<CartItem>>)
      returns (r: Result<CartItem, SyncError>)
      modifies this`pendingChanges, this`storage, this`delivered, this`remoteCalls
      ensures isOnline ==> remoteCalls == old(remoteCalls) + [UpdateItemChange(itemId, quantity)]
      ensures isOnline && reply.Some? ==>
        && r == Ok(reply.value)
        && pendingChanges == old(pendingChanges)
        && storage == AfterCartFetch(true, old(storage), refetch)
        && delivered == old(delivered) + RefreshDeliveries(eventListeners, true, old(storage), refetch)
      ensures isOnline && reply.None? ==>
        && r == Err(RemoteFailure)
        && pendingChanges == old(pendingChanges) + [PendingChange(changeId, UpdateItemChange(itemId, quantity), now, 0)]
        && storage == old(storage)[PENDING_CHANGES_KEY := StoredChanges(pendingChanges)]
        && CachedCart(storage) == CachedCart(old(storage))
        && delivered == old(delivered)
      ensures !isOnline ==>
        && remoteCalls == old(remoteCalls)
        && pendingChanges == old(pendingChanges) + [PendingChange(changeId, UpdateItemChange(itemId, quantity), now, 0)]
      ensures !isOnline && CountOf(CachedCart(old(storage)), itemId) == 0 ==>
        && r == Err(ItemNotFoundInCart)
        && storage == old(storage)[PENDING_CHANGES_KEY := StoredChanges(pendingChanges)]
        && delivered == old(delivered)
      ensures !isOnline && CountOf(CachedCart(old(storage)), itemId) > 0 ==>
        && var updated := SetFirstQuantity(CachedCart(old(storage)), itemId, quantity).value;
           && storage == old(storage)[PENDING_CHANGES_KEY := StoredChanges(pendingChanges)][CART_ITEMS_KEY := StoredCart(updated.0)]
           && delivered == old(delivered) + Deliveries(HandlersOf(eventListeners, CART_UPDATED), CART_UPDATED, CartData(updated.0))
           && r == Ok(updated.1)
    {
      var change := PendingChange(changeId, UpdateItemChange(itemId, quantity), now, 0);
      if isOnline {
        remoteCalls := remoteCalls + [UpdateItemChange(itemId, quantity)];
        if reply.Some? {
          RefreshCartData(refetch);
          r := Ok(reply.value);
        } else {
          AddPendingChange(change);
          r := Err(RemoteFailure);
        }
      } else {
        AddPendingChange(change);
        var currentCart := CachedCart(storage);
        var updated := SetFirstQuantity(currentCart, itemId, quantity);
        if updated.Some? {
          storage := storage[CART_ITEMS_KEY := StoredCart(updated.value.0)];
          Emit(CART_UPDATED, CartData(updated.value.0));
          r := Ok(updated.value.1);
        } else {
          r := Err(ItemNotFoundInCart);
        }
      }
    }

    method RemoveFromCart(itemId: string, changeId: string, now: int, ok: bool, refetch: Option<seq<CartItem>>)
      returns (r: Outcome<SyncError>)
      modifies this`pendingChanges, this`storage, this`delivered, this`remoteCalls
      ensures isOnline ==> remoteCalls == old(remoteCalls) + [RemoveItemChange(itemId)]
      ensures isOnline && ok ==>
        && r == Pass
        && pendingChanges == old(pendingChanges)
        && storage == AfterCartFetch(true, old(storage), refetch)
        && delivered == old(delivered) + RefreshDeliveries(eventListeners, true, old(storage), refetch)
      ensures isOnline && !ok ==>
        && r == Fail(RemoteFailure)
        && pendingChanges == old(pendingChanges) + [PendingChange(changeId, RemoveItemChange(itemId), now, 0)]
        && storage == old(storage)[PENDING_CHANGES_KEY := StoredChanges(pendingChanges)]
        && CachedCart(storage) == CachedCart(old(storage))
        && delivered == old(delivered)
      ensures !isOnline ==>
        && r == Pass
        && remoteCalls == old(remoteCalls)
        && pendingChanges == old(pendingChanges) + [PendingChange(changeId, RemoveItemChange(itemId), now, 0)]
        && var filtered := WithoutItem(CachedCart(old(storage)), itemId);
           && storage == old(storage)[PENDING_CHANGES_KEY := StoredChanges(pendingChanges)][CART_ITEMS_KEY := StoredCart(filtered)]
           && delivered == old(delivered) + Deliveries(HandlersOf(eventListeners, CART_UPDATED), CART_UPDATED, CartData(filtered))
    {
      var change := PendingChange(changeId, RemoveItemChange(itemId), now, 0);
      if isOnline {
        remoteCalls := remoteCalls + [RemoveItemChange(itemId)];
        if ok {
          RefreshCartData(refetch);
          r := Pass;
        } else {
          AddPendingChange(change);
          r := Fail(RemoteFailure);
        }
      } else {
        AddPendingChange(change);
        var currentCart := CachedCart(storage);
        var filtered := WithoutItem(currentCart, itemId);
        storage := storage[CART_ITEMS_KEY := StoredCart(filtered)];
        Emit(CART_UPDATED, CartData(filtered));
        r := Pass;
      }
    }

    /** Online, `performClearCart` first re-reads the cart through
        `getCartItems` (which stores and announces it), then deletes each
        line; `ok` says whether every delete succeeded. */
    method ClearCart(changeId: string, now: int, listing: Option<seq<CartItem>>, ok: bool, refetch: Option<seq<CartItem>>)
      returns (r: Outcome<SyncError>)
      modifies this`pendingChanges, this`storage, this`delivered, this`remoteCalls
      ensures isOnline ==> remoteCalls == old(remoteCalls) + [ClearCartChange]
      ensures isOnline && ok ==>
        && r == Pass
        && pendingChanges == old(pendingChanges)
        && storage == AfterCartFetch(true, AfterCartFetch(true, old(storage), listing), refetch)
        && delivered == old(delivered) + CartFetchDeliveries(eventListeners, true, listing)
             + RefreshDeliveries(eventListeners, true, AfterCartFetch(true, old(storage), listing), refetch)
      ensures isOnline && !ok ==>
        && r == Fail(RemoteFailure)
        && pendingChanges == old(pendingChanges) + [PendingChange(changeId, ClearCartChange, now, 0)]
        && storage == AfterCartFetch(true, old(storage), listing)[PENDING_CHANGES_KEY := StoredChanges(pendingChanges)]
        && delivered == old(delivered) + CartFetchDeliveries(eventListeners, true, listing)
      ensures !isOnline ==>
        && r == Pass
        && remoteCalls == old(remoteCalls)
        && pendingChanges == old(pendingChanges) + [PendingChange(changeId, ClearCartChange, now, 0)]
        && storage == old(storage)[PENDING_CHANGES_KEY := StoredChanges(pendingChanges)][CART_ITEMS_KEY := StoredCart([])]
        && delivered == old(delivered) + Deliveries(HandlersOf(eventListeners, CART_UPDATED), CART_UPDATED, CartData([]))
    {
      var change := PendingChange(changeId, ClearCartChange, now, 0);
      if isOnline {
        var _ := GetCartItems(listing);
        remoteCalls := remoteCalls + [ClearCartChange];
        if ok {
          RefreshCartData(refetch);
          r := Pass;
        } else {
          AddPendingChange(change);
          r := Fail(RemoteFailure);
        }
      } else {
        AddPendingChange(change);
        storage := storage[CART_ITEMS_KEY := StoredCart([])];
        Emit(CART_UPDATED, CartData([]));
        r := Pass;
      }
    }

    // -------------------------------------------------------------------
    // Pending queue

    /** Appends at the end and persists the whole queue. */
    method AddPendingChange(change: PendingChange)
      modifies this`pendingChanges, this`storage
      ensures pendingChanges == old(pendingChanges) + [change]
      ensures storage == old(storage)[PENDING_CHANGES_KEY := StoredChanges(pendingChanges)]
      ensures StoredQueue(storage) == pendingChanges
    {
      pendingChanges := pendingChanges + [change];
      storage := storage[PENDING_CHANGES_KEY := StoredChanges(pendingChanges)];
    }

    /** Replays a snapshot of the queue in order; a failed change is put
        back with its counter incremented while the counter stays below
        the cap. */
    method SyncPendingChanges(results: seq<bool>, refetch: Option<seq<CartItem>>)
      modifies this`pendingChanges, this`storage, this`delivered, this`remoteCalls
      ensures old(pendingChanges) == [] ==>
        pendingChanges == [] && storage == old(storage) && delivered == old(delivered) && remoteCalls == old(remoteCalls)
      ensures old(pendingChanges) != [] ==>
        && pendingChanges == Requeue(old(pendingChanges), results)
        && remoteCalls == old(remoteCalls) + ChangesOf(old(pendingChanges))
        && storage == AfterCartFetch(isOnline, old(storage)[PENDING_CHANGES_KEY := StoredChanges(pendingChanges)], refetch)
        && delivered == old(delivered) + RefreshDeliveries(eventListeners, isOnline, old(storage), refetch)
    {
      if |pendingChanges| == 0 {
        return;
      }
      var changesToProcess := pendingChanges;
      pendingChanges := [];
      ReplayAll(changesToProcess, results);
      storage := storage[PENDING_CHANGES_KEY := StoredChanges(pendingChanges)];
      RefreshCartData(refetch);
    }

    /** The replay loop of `syncPendingChanges`, over a snapshot of the
        queue taken before it was emptied. */
    method ReplayAll(changesToProcess: seq<PendingChange>, results: seq<bool>)
      requires pendingChanges == []
      modifies this`pendingChanges, this`remoteCalls
      ensures pendingChanges == Requeue(changesToProcess, results)
      ensures remoteCalls == old(remoteCalls) + ChangesOf(changesToProcess)
    {
      var k := 0;
      while k < |changesToProcess|
        invariant 0 <= k <= |changesToProcess|
        invariant pendingChanges == Requeue(changesToProcess[..k], results)
        invariant remoteCalls == old(remoteCalls) + ChangesOf(changesToProcess[..k])
      {
        var change := changesToProcess[k];
        ReplayPrefixStep(changesToProcess, k, results);
        remoteCalls := remoteCalls + [change.change];
        if !Succeeded(results, k) {
          change := change.(retryCount := change.retryCount + 1);
          if change.retryCount < MAX_RETRIES {
            pendingChanges := pendingChanges + [change];
          }
        }
        k := k + 1;
      }
      assert changesToProcess[..k] == changesToProcess;
    }

    method GetPendingChangesCount() returns (n: nat)
      ensures n == |pendingChanges|
    {
      n := |pendingChanges|;
    }

    method IsOnlineMode() returns (online: bool)
      ensures online == isOnline
    {
      online := isOnline;
    }
  }
}
