/** The development server's cart middleware (`cartMiddleware`): the
    store the client talks to. It keeps one table of cart lines and
    answers GET, POST, PUT and DELETE on any path containing
    `/api/v1/carts/items`; every other request is handed to the next
    middleware. */
module MockServer {
  import opened CartItems

  const CART_ITEMS_PATH := "/api/v1/carts/items"

  /** A parsed request body; absent fields are `None` (an absent `itemId`
      reads as the empty string). */
  datatype Body = Body(
    itemId: string,
    quantity: Option<int>,
    price: Option<int>,
    name: Option<string>,
    imageUrl: Option<string>)

  datatype Request = Request(verb: string, path: string, body: Body)

  /** The two refusals: 400 'Item ID is required', 404 'Item not found'. */
  datatype Refusal = MissingItemId | UnknownItem

  datatype Response =
    | ItemsReply(items: seq<CartItem>)
    | ItemReply(item: CartItem)
    | DeletedReply                       // { message: "Item deleted successfully" }
    | ErrorReply(status: int, error: string)
    | Forwarded                          // `next()`

  function StatusOf(e: Refusal): (status: int)
    ensures status == 400 || status == 404
    ensures status == 400 <==> e.MissingItemId?
  {
    match e
    case MissingItemId => 400
    case UnknownItem => 404
  }

  function MessageOf(e: Refusal): string {
    match e
    case MissingItemId => "Item ID is required"
    case UnknownItem => "Item not found"
  }

  function OrZero(x: Option<int>): int {
    if x.Some? then x.value else 0
  }

  function OrEmpty(x: Option<string>): string {
    if x.Some? then x.value else ""
  }

  /** The line a POST of a new itemId appends: its `id` is the itemId. */
  function NewEntry(body: Body): CartItem {
    CartItem(Some(body.itemId), body.itemId, QuantityOrOne(body.quantity), OrZero(body.price), OrEmpty(body.name), body.imageUrl)
  }

  /** POST: the first line with the itemId grows by `quantity || 1` and
      takes a truthy `imageUrl`, keeping its name and price; an unknown
      itemId gets one new line. The second component is the reply. */
  function PostUpsert(table: seq<CartItem>, body: Body): (r: (seq<CartItem>, CartItem))
    ensures r.1.itemId == body.itemId && r.1 in r.0
    ensures CountOf(r.0, body.itemId) == if CountOf(table, body.itemId) == 0 then 1 else CountOf(table, body.itemId)
    ensures QuantityOf(r.0, body.itemId) == QuantityOf(table, body.itemId) + QuantityOrOne(body.quantity)
    ensures WithoutItem(r.0, body.itemId) == WithoutItem(table, body.itemId)
    ensures forall id :: id != body.itemId ==> CountOf(r.0, id) == CountOf(table, id)
    ensures CountOf(table, body.itemId) == 0 ==> r == (table + [NewEntry(body)], NewEntry(body))
    ensures CountOf(table, body.itemId) > 0 ==>
      && |r.0| == |table|
      && exists line :: line in table && line.itemId == body.itemId
           && r.1.name == line.name && r.1.price == line.price && r.1.id == line.id
           && r.1.imageUrl == (if TruthyString(body.imageUrl) then body.imageUrl else line.imageUrl)
    ensures CountOf(table, body.itemId) > 0 ==>
      var i := IndexOf(table, body.itemId);
      && 0 <= i
      && r.1 == table[i].(
           quantity := table[i].quantity + QuantityOrOne(body.quantity),
           imageUrl := if TruthyString(body.imageUrl) then body.imageUrl else table[i].imageUrl)
      && r.0 == table[i := r.1]
  {
    var i := IndexOf(table, body.itemId);
    IndexOfIffCount(table, body.itemId);
    if i >= 0 then
      var existing := table[i];
      var merged := existing.(
        quantity := existing.quantity + QuantityOrOne(body.quantity),
        imageUrl := if TruthyString(body.imageUrl) then body.imageUrl else existing.imageUrl);
      ReplaceLine(table, i, merged, body.itemId);
      assert merged == table[i := merged][i];
      (table[i := merged], merged)
    else
      AppendLine(table, NewEntry(body));
      (table + [NewEntry(body)], NewEntry(body))
  }

  /** POST never makes a second line for an itemId. */
  lemma PostKeepsUnique(table: seq<CartItem>, body: Body)
    requires UniqueIds(table)
    ensures UniqueIds(PostUpsert(table, body).0)
  {
    var r := PostUpsert(table, body).0;
    UniqueIdsIffCount(table);
    forall id ensures CountOf(r, id) <= 1 {
      assert CountOf(table, id) <= 1;
    }
    UniqueIdsIffCount(r);
  }

  /** The line a PUT writes over the first match: `id` and `itemId` from
      the path, every other field from the body when truthy and from the
      existing line otherwise. */
  function PutEntry(existing: CartItem, itemId: string, body: Body): (e: CartItem)
    ensures e.id == Some(itemId) && e.itemId == itemId
    ensures e.quantity == if TruthyNumber(body.quantity) then body.quantity.value else existing.quantity
    ensures e.price == if TruthyNumber(body.price) then body.price.value else existing.price
    ensures e.name == if TruthyString(body.name) then body.name.value else existing.name
    ensures e.imageUrl == if TruthyString(body.imageUrl) then body.imageUrl else existing.imageUrl
  {
    CartItem(
      Some(itemId),
      itemId,
      if TruthyNumber(body.quantity) then body.quantity.value else existing.quantity,
      if TruthyNumber(body.price) then body.price.value else existing.price,
      if TruthyString(body.name) then body.name.value else existing.name,
      if TruthyString(body.imageUrl) then body.imageUrl else existing.imageUrl)
  }

  /** PUT of the itemId taken from the path. */
  function PutUpdate(table: seq<CartItem>, itemId: string, body: Body): (r: Result<(seq<CartItem>, CartItem), Refusal>)
    ensures itemId == "" ==> r == Err(MissingItemId)
    ensures itemId != "" && CountOf(table, itemId) == 0 ==> r == Err(UnknownItem)
    ensures itemId != "" && CountOf(table, itemId) > 0 ==> r.Ok?
    ensures r.Ok? ==>
      && |r.value.0| == |table|
      && r.value.1 in r.value.0
      && r.value.1.itemId == itemId && r.value.1.id == Some(itemId)
      && WithoutItem(r.value.0, itemId) == WithoutItem(table, itemId)
      && (forall id :: CountOf(r.value.0, id) == CountOf(table, id))
      && (TruthyNumber(body.quantity) ==> r.value.1.quantity == body.quantity.value)
      && (UniqueIds(table) ==> QuantityOf(r.value.0, itemId) == r.value.1.quantity)
    ensures r.Ok? ==>
      var i := IndexOf(table, itemId);
      && 0 <= i
      && r.value.1 == PutEntry(table[i], itemId, body)
      && r.value.0 == table[i := r.value.1]
  {
    if itemId == "" then Err(MissingItemId)
    else
      var i := IndexOf(table, itemId);
      IndexOfIffCount(table, itemId);
      if i < 0 then Err(UnknownItem)
      else
        var updated := PutEntry(table[i], itemId, body);
        ReplaceLine(table, i, updated, itemId);
        assert updated == table[i := updated][i];
        if UniqueIds(table) then
          UniqueIdsIffCount(table);
          SingleLineQuantity(table, i, itemId);
          Ok((table[i := updated], updated))
        else
          Ok((table[i := updated], updated))
  }

  /** A quantity of 0 cannot be written through PUT: a table with no zero
      quantity keeps none. */
  lemma PutNeverZeroes(table: seq<CartItem>, itemId: string, body: Body)
    requires forall k :: 0 <= k < |table| ==> table[k].quantity != 0
    requires PutUpdate(table, itemId, body).Ok?
    ensures var t := PutUpdate(table, itemId, body).value.0;
      forall k :: 0 <= k < |t| ==> t[k].quantity != 0
  {
    var i := IndexOf(table, itemId);
    assert PutUpdate(table, itemId, body).value.0 == table[i := PutEntry(table[i], itemId, body)];
  }

  /** DELETE of the itemId taken from the path: every line with it goes. */
  function DeleteItem(table: seq<CartItem>, itemId: string): (r: Result<seq<CartItem>, Refusal>)
    ensures itemId == "" ==> r == Err(MissingItemId)
    ensures itemId != "" && CountOf(table, itemId) == 0 ==> r == Err(UnknownItem)
    ensures r.Ok? ==> r.value == WithoutItem(table, itemId) && |r.value| < |table|
    ensures itemId != "" && CountOf(table, itemId) > 0 ==> r.Ok?
  {
    if itemId == "" then Err(MissingItemId)
    else
      IndexOfIffCount(table, itemId);
      if IndexOf(table, itemId) < 0 then Err(UnknownItem)
      else Ok(WithoutItem(table, itemId))
  }

  /** Neither PUT nor DELETE makes a second line for an itemId. */
  lemma PutDeleteKeepUnique(table: seq<CartItem>, itemId: string, body: Body)
    requires UniqueIds(table)
    ensures PutUpdate(table, itemId, body).Ok? ==> UniqueIds(PutUpdate(table, itemId, body).value.0)
    ensures DeleteItem(table, itemId).Ok? ==> UniqueIds(DeleteItem(table, itemId).value)
  {
    UniqueIdsIffCount(table);
    if PutUpdate(table, itemId, body).Ok? {
      UniqueIdsIffCount(PutUpdate(table, itemId, body).value.0);
    }
    WithoutItemKeepsUnique(table, itemId);
  }

  predicate OnCartPath(req: Request) {
    Contains(req.path, CART_ITEMS_PATH)
  }

  class CartTable {
    /** The `carts.items` collection of the server's JSON database. */
    var items: seq<CartItem>

    constructor (initial: seq<CartItem>)
      ensures items == initial
    {
      items := initial;
    }

    /** `cartMiddleware`, one request at a time. */
    method Handle(req: Request) returns (resp: Response)
      modifies this
      ensures !OnCartPath(req) ==> resp == Forwarded && items == old(items)
      ensures OnCartPath(req) && req.verb == "GET" ==> resp == ItemsReply(old(items)) && items == old(items)
      ensures OnCartPath(req) && req.verb == "POST" ==>
        var u := PostUpsert(old(items), req.body);
        items == u.0 && resp == ItemReply(u.1)
      ensures OnCartPath(req) && req.verb == "PUT" ==>
        var u := PutUpdate(old(items), LastSegment(req.path), req.body);
        && (u.Ok? ==> items == u.value.0 && resp == ItemReply(u.value.1))
        && (u.Err? ==> items == old(items) && resp == ErrorReply(StatusOf(u.error), MessageOf(u.error)))
      ensures OnCartPath(req) && req.verb == "DELETE" ==>
        var u := DeleteItem(old(items), LastSegment(req.path));
        && (u.Ok? ==> items == u.value && resp == DeletedReply)
        && (u.Err? ==> items == old(items) && resp == ErrorReply(StatusOf(u.error), MessageOf(u.error)))
      ensures OnCartPath(req) && req.verb !in {"GET", "POST", "PUT", "DELETE"} ==>
        resp == Forwarded && items == old(items)
    {
      if Contains(req.path, CART_ITEMS_PATH) {
        if req.verb == "GET" {
          resp := ItemsReply(items);
          return;
        }
        if req.verb == "POST" {
          resp := HandlePost(req.body);
          return;
        }
        if req.verb == "PUT" {
          resp := HandlePut(LastSegment(req.path), req.body);
          return;
        }
        if req.verb == "DELETE" {
          resp := HandleDelete(LastSegment(req.path));
          return;
        }
      }
      resp := Forwarded;
    }

    /** The POST branch. */
    method HandlePost(body: Body) returns (resp: Response)
      modifies this`items
      ensures var u := PostUpsert(old(items), body);
        items == u.0 && resp == ItemReply(u.1)
    {
      var i := IndexOf(items, body.itemId);
      if i >= 0 {
        var existingItem := items[i];
        existingItem := existingItem.(quantity := existingItem.quantity + QuantityOrOne(body.quantity));
        if TruthyString(body.imageUrl) {
          existingItem := existingItem.(imageUrl := body.imageUrl);
        }
        items := items[i := existingItem];
        resp := ItemReply(existingItem);
      } else {
        var newItem := NewEntry(body);
        items := items + [newItem];
        resp := ItemReply(newItem);
      }
    }

    /** The PUT branch, with the itemId taken from the path. */
    method HandlePut(itemId: string, body: Body) returns (resp: Response)
      modifies this`items
      ensures var u := PutUpdate(old(items), itemId, body);
        && (u.Ok? ==> items == u.value.0 && resp == ItemReply(u.value.1))
        && (u.Err? ==> items == old(items) && resp == ErrorReply(StatusOf(u.error), MessageOf(u.error)))
    {
      if itemId == "" {
        resp := ErrorReply(400, "Item ID is required");
        return;
      }
      var i := IndexOf(items, itemId);
      IndexOfIffCount(items, itemId);
      if i < 0 {
        resp := ErrorReply(404, "Item not found");
        return;
      }
      var updatedItem := PutEntry(items[i], itemId, body);
      items := items[i := updatedItem];
      resp := ItemReply(updatedItem);
    }

    /** The DELETE branch, with the itemId taken from the path. */
    method HandleDelete(itemId: string) returns (resp: Response)
      modifies this`items
      ensures var u := DeleteItem(old(items), itemId);
        && (u.Ok? ==> items == u.value && resp == DeletedReply)
        && (u.Err? ==> items == old(items) && resp == ErrorReply(StatusOf(u.error), MessageOf(u.error)))
    {
      if itemId == "" {
        resp := ErrorReply(400, "Item ID is required");
        return;
      }
      IndexOfIffCount(items, itemId);
      if IndexOf(items, itemId) < 0 {
        resp := ErrorReply(404, "Item not found");
        return;
      }
      items := WithoutItem(items, itemId);
      resp := DeletedReply;
    }
  }
}
