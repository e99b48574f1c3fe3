/** The in-memory cart service of the frontend's logic script
    (`mockCartService`): one array of lines that `addToCart` merges into
    by itemId and `updateCartItem` rewrites or filters. */
module MockCartServiceModel {
  import opened CartItems

  /** The item `addToCart` is given; its `quantity` is always present. */
  datatype MockRequest = MockRequest(itemId: string, name: string, price: int, quantity: int, imageUrl: Option<string>)

  /** `new Error('Item not found')`. */
  datatype MockError = ItemNotFound

  /** The line `addToCart` pushes for a new itemId; `stamp` is the text of
      `Date.now()`. */
  function NewMockLine(item: MockRequest, stamp: string): (line: CartItem)
    ensures line.itemId == item.itemId && line.quantity == item.quantity
    ensures line.id == Some(item.itemId + "_" + stamp)
  {
    CartItem(Some(item.itemId + "_" + stamp), item.itemId, item.quantity, item.price, item.name, item.imageUrl)
  }

  class MockCartService {
    var items: seq<CartItem>

    constructor ()
      ensures items == []
    {
      items := [];
    }

    /** `addToCart`: the first line with the itemId grows by the requested
        quantity and is returned; otherwise a new line is pushed. The
        itemId's total grows by exactly the requested quantity, every other
        itemId is untouched, and no second line is ever made. */
    method AddToCart(item: MockRequest, stamp: string) returns (line: CartItem)
      modifies this`items
      ensures line.itemId == item.itemId && line in items
      ensures var i := IndexOf(old(items), item.itemId);
        && (i < 0 ==> line == NewMockLine(item, stamp) && items == old(items) + [line])
        && (i >= 0 ==> line == old(items)[i].(quantity := old(items)[i].quantity + item.quantity) && items == old(items)[i := line])
      ensures QuantityOf(items, item.itemId) == QuantityOf(old(items), item.itemId) + item.quantity
      ensures CountOf(items, item.itemId) == if CountOf(old(items), item.itemId) == 0 then 1 else CountOf(old(items), item.itemId)
      ensures WithoutItem(items, item.itemId) == WithoutItem(old(items), item.itemId)
      ensures UniqueIds(old(items)) ==> UniqueIds(items)
    {
      var i := IndexOf(items, item.itemId);
      IndexOfIffCount(items, item.itemId);
      UniqueIdsIffCount(items);
      ghost var before := items;
      if i >= 0 {
        var existingItem := items[i];
        existingItem := existingItem.(quantity := existingItem.quantity + item.quantity);
        ReplaceLine(items, i, existingItem, item.itemId);
        items := items[i := existingItem];
        line := existingItem;
      } else {
        var newItem := NewMockLine(item, stamp);
        AppendLine(items, newItem);
        items := items + [newItem];
        line := newItem;
      }
      assert items[if i >= 0 then i else |items| - 1] == line;
      if UniqueIds(before) {
        forall id ensures CountOf(items, id) <= 1 {
          assert CountOf(before, id) <= 1;
        }
        UniqueIdsIffCount(items);
      }
    }

    /** `updateCartItem`: an unknown itemId throws and changes nothing; a
        quantity of 0 or less removes every line with the itemId and
        returns null; otherwise the first line takes the quantity and is
        returned. Lines of other itemIds are never touched. */
    method UpdateCartItem(itemId: string, quantity: int) returns (r: Result<Option<CartItem>, MockError>)
      modifies this`items
      ensures CountOf(old(items), itemId) == 0 ==> r == Err(ItemNotFound) && items == old(items)
      ensures CountOf(old(items), itemId) > 0 && quantity <= 0 ==>
        r == Ok(None) && items == WithoutItem(old(items), itemId)
      ensures var i := IndexOf(old(items), itemId);
        i >= 0 && quantity > 0 ==>
        r == Ok(Some(old(items)[i].(quantity := quantity))) && items == old(items)[i := old(items)[i].(quantity := quantity)]
      ensures WithoutItem(items, itemId) == WithoutItem(old(items), itemId)
      ensures r.Ok? && UniqueIds(old(items)) ==>
        UniqueIds(items) && QuantityOf(items, itemId) == (if quantity <= 0 then 0 else quantity)
    {
      var i := IndexOf(items, itemId);
      IndexOfIffCount(items, itemId);
      if i < 0 {
        return Err(ItemNotFound);
      }
      if quantity <= 0 {
        ghost var before := items;
        items := WithoutItem(items, itemId);
        WithoutAbsentItem(items, itemId);
        CountZeroQuantity(items, itemId);
        if UniqueIds(before) {
          WithoutItemKeepsUnique(before, itemId);
        }
        return Ok(None);
      }
      var itemToUpdate := items[i].(quantity := quantity);
      ghost var before := items;
      ReplaceLine(items, i, itemToUpdate, itemId);
      items := items[i := itemToUpdate];
      if UniqueIds(before) {
        UniqueIdsIffCount(before);
        forall id ensures CountOf(items, id) <= 1 {
          assert CountOf(before, id) <= 1;
        }
        UniqueIdsIffCount(items);
        SingleLineQuantity(items, i, itemId);
      }
      r := Ok(Some(itemToUpdate));
    }

    /** `getCartItems`: a copy of the lines. */
    method GetCartItems() returns (copy: seq<CartItem>)
      ensures copy == items
    {
      copy := items;
    }

    method ClearCart()
      modifies this`items
      ensures items == []
    {
      items := [];
    }
  }

  /** The script's scenario: SKUTEST2 added with quantity 2 and then with
      quantity 1 leaves one line, with quantity 3 and the id of the first
      add. */
  method SkuTest2Scenario(firstStamp: string, secondStamp: string) returns (finalItems: seq<CartItem>)
    ensures finalItems == [CartItem(Some("SKUTEST2_" + firstStamp), "SKUTEST2", 3, 25, "Test Product 2", None)]
  {
    var service := new MockCartService();
    var result1 := service.AddToCart(MockRequest("SKUTEST2", "Test Product 2", 25, 2, None), firstStamp);
    assert service.items == [result1] && result1.quantity == 2;
    assert IndexOf(service.items, "SKUTEST2") == 0;
    var result2 := service.AddToCart(MockRequest("SKUTEST2", "Test Product 2", 25, 1, None), secondStamp);
    finalItems := service.GetCartItems();
    assert "SKUTEST2" + "_" == "SKUTEST2_";
  }
}
