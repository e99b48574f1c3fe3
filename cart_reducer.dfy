/** The cart view state of the React cart context: a pure transition
    function over the displayed cart lines and the online flag. */
module CartReducer {
  import opened CartItems

  datatype CartState = CartState(items: seq<CartItem>, isOnline: bool)

  /** The six actions the reducer knows, plus any other tag a caller may
      dispatch at run time. */
  datatype CartAction =
    | SetCart(payload: seq<CartItem>)
    | AddItem(productId: string, quantity: int)
    | RemoveItem(itemId: string)
    | UpdateQuantity(productId: string, quantity: int)
    | ClearCart
    | SetOnlineStatus(online: bool)
    | Unrecognized(tag: string)

  /** The line ADD_ITEM creates for a product not yet in the cart. */
  function PlaceholderLine(productId: string, quantity: int): CartItem {
    CartItem(None, productId, quantity, 0, "Product", None)
  }

  /** `items.map(item => item.itemId === id ? {...item, quantity: item.quantity + q} : item)` */
  function IncreaseMatching(items: seq<CartItem>, productId: string, q: int): seq<CartItem> {
    if items == [] then []
    else
      var head := if items[0].itemId == productId then items[0].(quantity := items[0].quantity + q) else items[0];
      [head] + IncreaseMatching(items[1..], productId, q)
  }

  /** `items.map(item => item.itemId === id ? {...item, quantity} : item)` */
  function SetMatching(items: seq<CartItem>, productId: string, q: int): seq<CartItem> {
    if items == [] then []
    else
      var head := if items[0].itemId == productId then items[0].(quantity := q) else items[0];
      [head] + SetMatching(items[1..], productId, q)
  }

  function Reduce(state: CartState, action: CartAction): (next: CartState)
    ensures next.isOnline == if action.SetOnlineStatus? then action.online else state.isOnline
    ensures action.SetOnlineStatus? || action.Unrecognized? ==> next.items == state.items
  {
    match action
    case SetCart(payload) => state.(items := payload)
    case AddItem(productId, quantity) =>
      if IndexOf(state.items, productId) >= 0 then
        state.(items := IncreaseMatching(state.items, productId, quantity))
      else
        state.(items := state.items + [PlaceholderLine(productId, quantity)])
    case RemoveItem(itemId) => state.(items := WithoutItem(state.items, itemId))
    case UpdateQuantity(productId, quantity) => state.(items := SetMatching(state.items, productId, quantity))
    case ClearCart => state.(items := [])
    case SetOnlineStatus(online) => state.(isOnline := online)
    case Unrecognized(_) => state
  }

  // ---------------------------------------------------------------------
  // Properties of the map helpers

  lemma {:induction false} IncreaseMatchingAt(items: seq<CartItem>, productId: string, q: int)
    ensures var r := IncreaseMatching(items, productId, q);
      && |r| == |items|
      && (forall i :: 0 <= i < |items| && items[i].itemId != productId ==> r[i] == items[i])
      && (forall i :: 0 <= i < |items| && items[i].itemId == productId ==> r[i] == items[i].(quantity := items[i].quantity + q))
  {
    if items != [] {
      IncreaseMatchingAt(items[1..], productId, q);
      var r := IncreaseMatching(items, productId, q);
      assert r[1..] == IncreaseMatching(items[1..], productId, q);
      forall i | 0 < i < |items| ensures items[i] == items[1..][i - 1] && r[i] == r[1..][i - 1] {}
    }
  }

  lemma {:induction false} IncreaseMatchingTotals(items: seq<CartItem>, productId: string, q: int, id: string)
    ensures var r := IncreaseMatching(items, productId, q);
      && CountOf(r, id) == CountOf(items, id)
      && (id == productId && CountOf(items, id) == 0 ==> QuantityOf(r, id) == QuantityOf(items, id))
      && (id == productId && CountOf(items, id) == 1 ==> QuantityOf(r, id) == QuantityOf(items, id) + q)
  {
    if items != [] {
      IncreaseMatchingTotals(items[1..], productId, q, id);
      var r := IncreaseMatching(items, productId, q);
      assert r[0].itemId == items[0].itemId && r[1..] == IncreaseMatching(items[1..], productId, q);
    }
  }

  lemma {:induction false} IncreaseMatchingOthers(items: seq<CartItem>, productId: string, q: int)
    ensures WithoutItem(IncreaseMatching(items, productId, q), productId) == WithoutItem(items, productId)
  {
    if items != [] {
      IncreaseMatchingOthers(items[1..], productId, q);
      var r := IncreaseMatching(items, productId, q);
      assert r[0].itemId == items[0].itemId && r[1..] == IncreaseMatching(items[1..], productId, q);
      if items[0].itemId != productId {
        assert r[0] == items[0];
      }
    }
  }

  lemma {:induction false} SetMatchingAt(items: seq<CartItem>, productId: string, q: int)
    ensures var r := SetMatching(items, productId, q);
      && |r| == |items|
      && (forall i :: 0 <= i < |items| && items[i].itemId != productId ==> r[i] == items[i])
      && (forall i :: 0 <= i < |items| && items[i].itemId == productId ==> r[i] == items[i].(quantity := q))
  {
    if items != [] {
      SetMatchingAt(items[1..], productId, q);
      var r := SetMatching(items, productId, q);
      assert r[1..] == SetMatching(items[1..], productId, q);
      forall i | 0 < i < |items| ensures items[i] == items[1..][i - 1] && r[i] == r[1..][i - 1] {}
    }
  }

  lemma {:induction false} SetMatchingTotals(items: seq<CartItem>, productId: string, q: int, id: string)
    ensures var r := SetMatching(items, productId, q);
      && CountOf(r, id) == CountOf(items, id)
      && (id == productId && CountOf(items, id) == 0 ==> QuantityOf(r, id) == 0)
      && (id == productId && CountOf(items, id) == 1 ==> QuantityOf(r, id) == q)
  {
    if items != [] {
      SetMatchingTotals(items[1..], productId, q, id);
      var r := SetMatching(items, productId, q);
      assert r[0].itemId == items[0].itemId && r[1..] == SetMatching(items[1..], productId, q);
    }
  }

  lemma {:induction false} SetMatchingOthers(items: seq<CartItem>, productId: string, q: int)
    ensures WithoutItem(SetMatching(items, productId, q), productId) == WithoutItem(items, productId)
  {
    if items != [] {
      SetMatchingOthers(items[1..], productId, q);
      var r := SetMatching(items, productId, q);
      assert r[0].itemId == items[0].itemId && r[1..] == SetMatching(items[1..], productId, q);
      if items[0].itemId != productId {
        assert r[0] == items[0];
      }
    }
  }

  // ---------------------------------------------------------------------
  // One lemma per action

  /** SET_CART replaces the lines wholesale and keeps the online flag. */
  lemma SetCartReplaces(state: CartState, payload: seq<CartItem>)
    ensures Reduce(state, SetCart(payload)) == CartState(payload, state.isOnline)
  {
  }

  /** ADD_ITEM for a product already in the cart adds `quantity` to its
      line(s) only: same length, same order, every other line untouched. */
  lemma AddExistingItem(state: CartState, productId: string, quantity: int)
    requires CountOf(state.items, productId) > 0
    ensures var next := Reduce(state, AddItem(productId, quantity));
      && |next.items| == |state.items|
      && (forall i :: 0 <= i < |state.items| && state.items[i].itemId != productId ==> next.items[i] == state.items[i])
      && (forall i :: 0 <= i < |state.items| && state.items[i].itemId == productId ==>
            next.items[i] == state.items[i].(quantity := state.items[i].quantity + quantity))
      && WithoutItem(next.items, productId) == WithoutItem(state.items, productId)
      && next.isOnline == state.isOnline
  {
    IndexOfIffCount(state.items, productId);
    IncreaseMatchingAt(state.items, productId, quantity);
    IncreaseMatchingOthers(state.items, productId, quantity);
  }

  /** With one line per product, ADD_ITEM on an existing product grows
      that product's quantity by exactly `quantity`. */
  lemma AddExistingItemQuantity(state: CartState, productId: string, quantity: int)
    requires UniqueIds(state.items) && CountOf(state.items, productId) > 0
    ensures QuantityOf(Reduce(state, AddItem(productId, quantity)).items, productId)
            == QuantityOf(state.items, productId) + quantity
  {
    IndexOfIffCount(state.items, productId);
    IncreaseMatchingTotals(state.items, productId, quantity, productId);
    UniqueIdsIffCount(state.items);
    assert CountOf(state.items, productId) == 1;
  }

  /** ADD_ITEM for a new product appends one placeholder line
      (price 0, name "Product") carrying the requested quantity. */
  lemma AddNewItem(state: CartState, productId: string, quantity: int)
    requires CountOf(state.items, productId) == 0
    ensures Reduce(state, AddItem(productId, quantity))
            == state.(items := state.items + [CartItem(None, productId, quantity, 0, "Product", None)])
  {
    IndexOfIffCount(state.items, productId);
  }

  /** ADD_ITEM keeps "at most one line per itemId". */
  lemma {:induction false} AddItemKeepsUnique(state: CartState, productId: string, quantity: int)
    requires UniqueIds(state.items)
    ensures UniqueIds(Reduce(state, AddItem(productId, quantity)).items)
  {
    var next := Reduce(state, AddItem(productId, quantity)).items;
    UniqueIdsIffCount(state.items);
    IndexOfIffCount(state.items, productId);
    if CountOf(state.items, productId) > 0 {
      forall id ensures CountOf(next, id) <= 1 {
        IncreaseMatchingTotals(state.items, productId, quantity, id);
      }
    } else {
      var line := PlaceholderLine(productId, quantity);
      AppendLine(state.items, line);
      forall id ensures CountOf(next, id) <= 1 {
        if id != productId {
          assert CountOf(next, id) == CountOf(state.items, id);
        }
      }
    }
    UniqueIdsIffCount(next);
  }

  /** REMOVE_ITEM drops every line with that itemId, keeps the others in
      order, and is a no-op for an absent itemId. */
  lemma RemoveItemDrops(state: CartState, itemId: string)
    ensures var next := Reduce(state, RemoveItem(itemId));
      && next.items == WithoutItem(state.items, itemId)
      && CountOf(next.items, itemId) == 0
      && (forall x :: x in next.items <==> x in state.items && x.itemId != itemId)
      && next.isOnline == state.isOnline
    ensures CountOf(state.items, itemId) == 0 ==> Reduce(state, RemoveItem(itemId)) == state
  {
    WithoutItemMembers(state.items, itemId);
    if CountOf(state.items, itemId) == 0 {
      WithoutAbsentItem(state.items, itemId);
    }
  }

  /** UPDATE_QUANTITY sets the matching line's quantity exactly, keeps the
      length and the other lines, and is a no-op for an absent itemId. */
  lemma UpdateQuantitySets(state: CartState, productId: string, quantity: int)
    ensures var next := Reduce(state, UpdateQuantity(productId, quantity));
      && |next.items| == |state.items|
      && (forall i :: 0 <= i < |state.items| && state.items[i].itemId != productId ==> next.items[i] == state.items[i])
      && (forall i :: 0 <= i < |state.items| && state.items[i].itemId == productId ==>
            next.items[i] == state.items[i].(quantity := quantity))
      && WithoutItem(next.items, productId) == WithoutItem(state.items, productId)
    ensures UniqueIds(state.items) && CountOf(state.items, productId) > 0 ==>
      QuantityOf(Reduce(state, UpdateQuantity(productId, quantity)).items, productId) == quantity
    ensures CountOf(state.items, productId) == 0 ==> Reduce(state, UpdateQuantity(productId, quantity)) == state
  {
    var next := Reduce(state, UpdateQuantity(productId, quantity));
    SetMatchingAt(state.items, productId, quantity);
    SetMatchingOthers(state.items, productId, quantity);
    SetMatchingTotals(state.items, productId, quantity, productId);
    if UniqueIds(state.items) && CountOf(state.items, productId) > 0 {
      UniqueIdsIffCount(state.items);
      assert CountOf(state.items, productId) == 1;
    }
    if CountOf(state.items, productId) == 0 {
      NotInCount(state.items, productId);
      assert next.items == state.items;
    }
  }

  lemma {:induction false} NotInCount(items: seq<CartItem>, id: string)
    requires CountOf(items, id) == 0
    ensures forall i :: 0 <= i < |items| ==> items[i].itemId != id
  {
    if items != [] {
      NotInCount(items[1..], id);
      forall i | 0 <= i < |items| ensures items[i].itemId != id {
        if i > 0 { assert items[i] == items[1..][i - 1]; }
      }
    }
  }

  /** CLEAR_CART empties the lines; SET_ONLINE_STATUS changes only the
      flag; an unrecognised action returns the state as it was. */
  lemma OtherActions(state: CartState, online: bool, tag: string)
    ensures Reduce(state, ClearCart) == CartState([], state.isOnline)
    ensures Reduce(state, SetOnlineStatus(online)) == CartState(state.items, online)
    ensures Reduce(state, Unrecognized(tag)) == state
  {
  }
}
