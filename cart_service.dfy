/** The remote cart client (`cartService`). Each call it makes to the
    cart endpoint is recorded, in order, as a `Call`; what the endpoint
    answers is supplied by the caller (`ListReply`, `Attempt`, an optional
    reply body or a success flag). Back-off delays are recorded as the
    number of milliseconds waited, not waited out. */
module CartServiceClient {
  import opened CartItems

  /** The messages the client throws, one constructor per message. */
  datatype ClientError =
    | LoadFailed    // 'Unable to load cart items. Please try again later.'
    | AddFailed     // 'Failed to add item to cart after 3 attempts'
    | UpdateFailed  // 'Failed to update cart item'
    | RemoveFailed  // 'Failed to remove item from cart'
    | ClearFailed   // 'Failed to clear cart'

  /** The fields `updateCartItem` sends with its PUT. */
  datatype PutPayload = PutPayload(itemId: string, quantity: int, price: int, name: string)

  /** A request sent to the cart endpoint. */
  datatype Call =
    | ListCall                                   // GET  /carts/items
    | PostCall(body: AddRequest)                 // POST /carts/items
    | PutCall(itemId: string, payload: PutPayload) // PUT  /carts/items/{itemId}
    | DeleteCall(id: string)                     // DELETE /carts/items/{id}

  /** How a GET of the cart items ends. */
  datatype ListReply =
    | FetchFailed               // the request or the body read threw
    | NotOk(status: int)        // a response whose status is not 2xx
    | ArrayBody(items: seq<CartItem>)
    | OtherBody                 // a 2xx response whose JSON is not an array

  /** `getCartItems`: any failure becomes the one 'Unable to load' error;
      a body that is not an array reads as an empty cart. */
  function GetCartItems(reply: ListReply): (r: Result<seq<CartItem>, ClientError>)
    ensures r.Err? <==> reply.FetchFailed? || reply.NotOk?
    ensures r.Err? ==> r.error == LoadFailed
    ensures reply.ArrayBody? ==> r == Ok(reply.items)
    ensures reply.OtherBody? ==> r == Ok([])
  {
    match reply
    case FetchFailed => Err(LoadFailed)
    case NotOk(_) => Err(LoadFailed)
    case ArrayBody(items) => Ok(items)
    case OtherBody => Ok([])
  }

  // ---------------------------------------------------------------------
  // Adding a new item: three POST attempts

  /** How one POST attempt ends. For a refused POST, `recheck` is what the
      GET made after a 'duplicate id' error text answers (it is not
      consulted for any other text). */
  datatype Attempt =
    | Created(body: CartItem)                      // 2xx: the parsed body
    | Thrown                                       // the request or the body read threw
    | Refused(errorText: string, recheck: ListReply) // not 2xx

  /** `errorText.toLowerCase().includes('duplicate id')`. */
  predicate IsDuplicateIdText(text: string) {
    Contains(ToLower(text), "duplicate id")
  }

  /** An attempt that ends the loop with a value: a created line, or a
      duplicate-id refusal after which the cart holds the itemId. */
  predicate Resolves(a: Attempt, itemId: string) {
    || a.Created?
    || (&& a.Refused?
        && IsDuplicateIdText(a.errorText)
        && GetCartItems(a.recheck).Ok?
        && IndexOf(GetCartItems(a.recheck).value, itemId) >= 0)
  }

  /** The value a resolving attempt returns: the created line, or the first
      cart line with the itemId. */
  function Resolution(a: Attempt, itemId: string): (line: CartItem)
    requires Resolves(a, itemId)
    ensures a.Refused? ==> line.itemId == itemId && line in GetCartItems(a.recheck).value
  {
    if a.Created? then a.body
    else
      var items := GetCartItems(a.recheck).value;
      items[IndexOf(items, itemId)]
  }

  /** The requests one attempt sends. */
  function AttemptCalls(a: Attempt, body: AddRequest): seq<Call> {
    [PostCall(body)] + (if a.Refused? && IsDuplicateIdText(a.errorText) then [ListCall] else [])
  }

  function AttemptsCalls(attempts: seq<Attempt>, body: AddRequest): seq<Call>
    decreases |attempts|
  {
    if attempts == [] then []
    else AttemptsCalls(attempts[..|attempts| - 1], body) + AttemptCalls(attempts[|attempts| - 1], body)
  }

  /** The position of the first attempt that resolves, or -1. */
  function FirstResolved(attempts: seq<Attempt>, itemId: string): (k: int)
    ensures -1 <= k < |attempts|
    ensures k >= 0 ==> Resolves(attempts[k], itemId)
    ensures forall j :: 0 <= j < |attempts| && (k < 0 || j < k) ==> !Resolves(attempts[j], itemId)
  {
    if attempts == [] then -1
    else if Resolves(attempts[0], itemId) then 0
    else
      var k := FirstResolved(attempts[1..], itemId);
      if k < 0 then -1 else k + 1
  }

  /** The attempts send only GETs and POSTs of the one body, at least one
      request per attempt. */
  lemma {:induction false} AttemptsCallsPosts(attempts: seq<Attempt>, body: AddRequest)
    ensures forall c :: c in AttemptsCalls(attempts, body) ==> c == ListCall || c == PostCall(body)
    ensures |AttemptsCalls(attempts, body)| >= |attempts|
    decreases |attempts|
  {
    if attempts != [] {
      AttemptsCallsPosts(attempts[..|attempts| - 1], body);
    }
  }

  /** `_addNewItemToCart`: up to three POSTs of the same body. The first
      attempt that resolves decides the result and no later attempt is
      made; after three failures it throws. Between attempts it waits
      200, then 400 milliseconds. */
  method AddNewItemToCart(body: AddRequest, attempts: seq<Attempt>)
    returns (r: Result<CartItem, ClientError>, calls: seq<Call>, waits: seq<int>)
    requires |attempts| == 3
    ensures var k := FirstResolved(attempts, body.itemId);
      && (k >= 0 ==> r == Ok(Resolution(attempts[k], body.itemId)) && calls == AttemptsCalls(attempts[..k + 1], body))
      && (k < 0 ==> r == Err(AddFailed) && calls == AttemptsCalls(attempts, body))
    ensures |waits| <= 2
    ensures forall j :: 0 <= j < |waits| ==> waits[j] == 200 * (j + 1)
    ensures r.Ok? ==> |waits| == FirstResolved(attempts, body.itemId)
    ensures r.Err? ==> |waits| == 2
  {
    calls := [];
    waits := [];
    var attempt := 1;
    while attempt <= 3
      invariant 1 <= attempt <= 4
      invariant forall j :: 0 <= j < attempt - 1 ==> !Resolves(attempts[j], body.itemId)
      invariant calls == AttemptsCalls(attempts[..attempt - 1], body)
      invariant |waits| == if attempt <= 3 then attempt - 1 else 2
      invariant forall j :: 0 <= j < |waits| ==> waits[j] == 200 * (j + 1)
    {
      var a := attempts[attempt - 1];
      assert attempts[..attempt][..attempt - 1] == attempts[..attempt - 1];
      calls := calls + AttemptCalls(a, body);
      if Resolves(a, body.itemId) {
        r := Ok(Resolution(a, body.itemId));
        return;
      }
      if attempt < 3 {
        waits := waits + [200 * attempt];
      }
      attempt := attempt + 1;
    }
    assert attempts[..3] == attempts;
    r := Err(AddFailed);
  }

  /** `addToCart`: quantity defaults to `quantity || 1`; an itemId already
      in the remote cart is updated to the existing plus the requested
      quantity (no POST); otherwise the new item is POSTed. `listing` is
      the first GET; `updateListing` and `put` are what the update path's
      GET and PUT answer. */
  method AddToCart(item: AddRequest, listing: ListReply, updateListing: ListReply, put: Option<CartItem>, attempts: seq<Attempt>)
    returns (r: Result<CartItem, ClientError>, calls: seq<Call>)
    requires |attempts| == 3
    ensures calls != [] && calls[0] == ListCall
    ensures GetCartItems(listing).Err? ==> r == Err(LoadFailed) && calls == [ListCall]
    ensures GetCartItems(listing).Ok? && IndexOf(GetCartItems(listing).value, item.itemId) >= 0 ==>
      && (forall c :: c in calls ==> !c.PostCall?)
      && var existing := GetCartItems(listing).value[IndexOf(GetCartItems(listing).value, item.itemId)];
         var update := UpdateCartItem(item.itemId, existing.quantity + QuantityOrOne(item.quantity), updateListing, put);
         r == update.0 && calls == [ListCall] + update.1
    ensures GetCartItems(listing).Ok? && IndexOf(GetCartItems(listing).value, item.itemId) < 0 ==>
      && (forall c :: c in calls[1..] ==> c == ListCall || c == PostCall(item.(quantity := Some(QuantityOrOne(item.quantity)))))
      && (r.Err? ==> r.error == AddFailed)
      && var body := item.(quantity := Some(QuantityOrOne(item.quantity)));
         var k := FirstResolved(attempts, item.itemId);
         && (k >= 0 ==> r == Ok(Resolution(attempts[k], item.itemId)) && calls == [ListCall] + AttemptsCalls(attempts[..k + 1], body))
         && (k < 0 ==> r == Err(AddFailed) && calls == [ListCall] + AttemptsCalls(attempts, body))
  {
    var itemWithQuantity := item.(quantity := Some(QuantityOrOne(item.quantity)));
    var currentItems := GetCartItems(listing);
    calls := [ListCall];
    if currentItems.Err? {
      r := Err(LoadFailed);
      return;
    }
    var i := IndexOf(currentItems.value, item.itemId);
    if i >= 0 {
      var newQuantity := currentItems.value[i].quantity + QuantityOrOne(item.quantity);
      var update := UpdateCartItem(item.itemId, newQuantity, updateListing, put);
      r := update.0;
      calls := calls + update.1;
    } else {
      var postCalls, waits;
      r, postCalls, waits := AddNewItemToCart(itemWithQuantity, attempts);
      var k := FirstResolved(attempts, item.itemId);
      AttemptsCallsPosts(attempts, itemWithQuantity);
      AttemptsCallsPosts(attempts[..k + 1], itemWithQuantity);
      calls := calls + postCalls;
      assert calls[1..] == postCalls;
    }
  }

  // ---------------------------------------------------------------------
  // Updating, removing, clearing

  /** `updateCartItem`: re-reads the cart; an itemId not in it fails
      without a PUT; otherwise one PUT carries the first matching line's
      price and name with the new quantity. `put` is the PUT's parsed
      body, `None` when it was refused or threw. */
  function UpdateCartItem(itemId: string, quantity: int, listing: ListReply, put: Option<CartItem>)
    : (r: (Result<CartItem, ClientError>, seq<Call>))
    ensures GetCartItems(listing).Err? ==> r == (Err(LoadFailed), [ListCall])
    ensures GetCartItems(listing).Ok? && CountOf(GetCartItems(listing).value, itemId) == 0 ==>
      r == (Err(UpdateFailed), [ListCall])
    ensures GetCartItems(listing).Ok? && CountOf(GetCartItems(listing).value, itemId) > 0 ==>
      var items := GetCartItems(listing).value;
      var i := IndexOf(items, itemId);
      && 0 <= i
      && r.1 == [ListCall, PutCall(itemId, PutPayload(itemId, quantity, items[i].price, items[i].name))]
    ensures r.0.Ok? <==> GetCartItems(listing).Ok? && CountOf(GetCartItems(listing).value, itemId) > 0 && put.Some?
    ensures r.0.Ok? ==> r.0.value == put.value
    ensures r.0.Err? && |r.1| == 2 ==> r.0.error == UpdateFailed
  {
    var items := GetCartItems(listing);
    if items.Err? then (Err(LoadFailed), [ListCall])
    else
      var i := IndexOf(items.value, itemId);
      IndexOfIffCount(items.value, itemId);
      if i < 0 then (Err(UpdateFailed), [ListCall])
      else
        var line := items.value[i];
        var calls := [ListCall, PutCall(itemId, PutPayload(line.itemId, quantity, line.price, line.name))];
        if put.Some? then (Ok(put.value), calls) else (Err(UpdateFailed), calls)
  }

  /** `removeFromCart`: one DELETE by itemId; a refusal or a throw becomes
      'Failed to remove item from cart'. */
  function RemoveFromCart(itemId: string, deleteOk: bool): (r: (Outcome<ClientError>, seq<Call>))
    ensures r.1 == [DeleteCall(itemId)]
    ensures r.0 == Pass <==> deleteOk
    ensures r.0.Fail? ==> r.0.error == RemoveFailed
  {
    (if deleteOk then Pass else Fail(RemoveFailed), [DeleteCall(itemId)])
  }

  /** The ids `clearCart` deletes: those of the lines with a truthy `id`,
      in list order. */
  function DeletableIds(items: seq<CartItem>): (ids: seq<string>)
    ensures |ids| <= |items|
    decreases |items|
  {
    if items == [] then []
    else
      var n := |items| - 1;
      DeletableIds(items[..n]) + (if TruthyString(items[n].id) then [items[n].id.value] else [])
  }

  /** Only non-empty ids of listed lines are deleted, and every line with
      one is. */
  lemma {:induction false} DeletableIdsExact(items: seq<CartItem>)
    ensures forall x :: x in DeletableIds(items) ==> x != "" && Some(x) in IdsOf(items)
    ensures forall line :: line in items && TruthyString(line.id) ==> line.id.value in DeletableIds(items)
    decreases |items|
  {
    if items != [] {
      var n := |items| - 1;
      DeletableIdsExact(items[..n]);
      assert items == items[..n] + [items[n]];
      assert IdsOf(items) == IdsOf(items[..n]) + {items[n].id};
    }
  }

  function IdsOf(items: seq<CartItem>): set<Option<string>> {
    set line | line in items :: line.id
  }

  lemma {:induction false} DeletableIdsAppend(a: seq<CartItem>, b: seq<CartItem>)
    ensures DeletableIds(a + b) == DeletableIds(a) + DeletableIds(b)
    decreases |b|
  {
    if b == [] {
      assert a + b == a;
    } else {
      var n := |b| - 1;
      assert (a + b)[..|a + b| - 1] == a + b[..n];
      DeletableIdsAppend(a, b[..n]);
    }
  }

  function DeleteCalls(ids: seq<string>): seq<Call> {
    seq(|ids|, i requires 0 <= i < |ids| => DeleteCall(ids[i]))
  }

  lemma DeleteCallsSnoc(ids: seq<string>, id: string)
    ensures DeleteCalls(ids + [id]) == DeleteCalls(ids) + [DeleteCall(id)]
  {
  }

  /** One more line of the list either adds its id to the deleted ones or
      nothing, seen from the front and from the back. */
  lemma DeletableStep(items: seq<CartItem>, k: nat)
    requires k < |items|
    ensures DeletableIds(items[..k + 1])
      == DeletableIds(items[..k]) + (if TruthyString(items[k].id) then [items[k].id.value] else [])
    ensures DeletableIds(items[k..])
      == (if TruthyString(items[k].id) then [items[k].id.value] else []) + DeletableIds(items[k + 1..])
  {
    DeletableIdsAppend(items[..k], [items[k]]);
    assert items[..k + 1] == items[..k] + [items[k]];
    DeletableIdsAppend([items[k]], items[k + 1..]);
    assert items[k..] == [items[k]] + items[k + 1..];
    assert [items[k]][..0] == [];
  }

  /** Position of the first DELETE reported as failed among the first `n`,
      or -1; a missing outcome counts as a success. */
  function FirstFailedDelete(results: seq<bool>, n: nat): (f: int)
    ensures -1 <= f < n
    ensures f >= 0 ==> f < |results| && !results[f]
    ensures forall j :: 0 <= j < n && (f < 0 || j < f) ==> DeleteSucceeds(results, j)
  {
    if n == 0 then -1
    else
      var f := FirstFailedDelete(results, n - 1);
      if f >= 0 then f else if DeleteSucceeds(results, n - 1) then -1 else n - 1
  }

  lemma {:induction false} FirstFailedDeleteAt(results: seq<bool>, n: nat, s: nat)
    requires s < n && !DeleteSucceeds(results, s)
    requires forall j :: 0 <= j < s ==> DeleteSucceeds(results, j)
    ensures FirstFailedDelete(results, n) == s
  {
    if n == s + 1 {
      NoFailedDelete(results, s);
    } else {
      FirstFailedDeleteAt(results, n - 1, s);
    }
  }

  lemma NoFailedDelete(results: seq<bool>, n: nat)
    requires forall j :: 0 <= j < n ==> DeleteSucceeds(results, j)
    ensures FirstFailedDelete(results, n) == -1
  {
  }

  predicate DeleteSucceeds(results: seq<bool>, j: int) {
    !(0 <= j < |results|) || results[j]
  }

  /** `clearCart`: re-reads the cart, then DELETEs each line with a truthy
      `id`, in order; the first refused DELETE stops the loop (the earlier
      deletions stand) and every failure, the read included, becomes
      'Failed to clear cart'. `results[j]` is how the j-th DELETE ends. */
  method ClearCart(listing: ListReply, results: seq<bool>) returns (r: Outcome<ClientError>, calls: seq<Call>)
    ensures GetCartItems(listing).Err? ==> r == Fail(ClearFailed) && calls == [ListCall]
    ensures GetCartItems(listing).Ok? ==>
      var ids := DeletableIds(GetCartItems(listing).value);
      var f := FirstFailedDelete(results, |ids|);
      && (f < 0 ==> r == Pass && calls == [ListCall] + DeleteCalls(ids))
      && (f >= 0 ==> r == Fail(ClearFailed) && calls == [ListCall] + DeleteCalls(ids[..f + 1]))
  {
    var listed := GetCartItems(listing);
    if listed.Err? {
      r, calls := Fail(ClearFailed), [ListCall];
      return;
    }
    var ok, deletes := DeleteEach(listed.value, results);
    r := if ok then Pass else Fail(ClearFailed);
    calls := [ListCall] + deletes;
  }

  /** The loop of `clearCart`: a DELETE for each line with a truthy `id`,
      stopping at the first one refused. */
  /** Stopping at the first refused delete: the deletes sent are those of
      the first ids up to and including the refused one. */
  lemma StopAtFailure(ids: seq<string>, done: seq<string>, rest: seq<string>, results: seq<bool>)
    requires ids == done + rest && done != []
    requires !DeleteSucceeds(results, |done| - 1)
    requires forall j :: 0 <= j < |done| - 1 ==> DeleteSucceeds(results, j)
    ensures FirstFailedDelete(results, |ids|) == |done| - 1
    ensures ids[..|done|] == done
  {
    assert ids[..|done|] == done;
    FirstFailedDeleteAt(results, |ids|, |done| - 1);
  }

  /** One line of the loop over the listed lines: its id, when truthy, moves
      from the ids still to delete to the ids already deleted. */
  lemma DeleteLoopStep(items: seq<CartItem>, k: nat, ids: seq<string>, done: seq<string>)
    requires k < |items| && ids == done + DeletableIds(items[k..])
    ensures TruthyString(items[k].id) ==> ids == (done + [items[k].id.value]) + DeletableIds(items[k + 1..])
    ensures !TruthyString(items[k].id) ==> ids == done + DeletableIds(items[k + 1..])
  {
    DeletableStep(items, k);
  }

  method DeleteEach(items: seq<CartItem>, results: seq<bool>) returns (ok: bool, deletes: seq<Call>)
    ensures var ids := DeletableIds(items);
      var f := FirstFailedDelete(results, |ids|);
      && (f < 0 ==> ok && deletes == DeleteCalls(ids))
      && (f >= 0 ==> !ok && deletes == DeleteCalls(ids[..f + 1]))
  {
    ghost var ids := DeletableIds(items);
    ghost var done: seq<string> := [];
    deletes := [];
    var sent := 0;
    var k := 0;
    assert items[0..] == items;
    while k < |items|
      invariant 0 <= k <= |items|
      invariant sent == |done|
      invariant ids == done + DeletableIds(items[k..])
      invariant deletes == DeleteCalls(done)
      invariant forall j :: 0 <= j < sent ==> DeleteSucceeds(results, j)
    {
      DeleteLoopStep(items, k, ids, done);
      if TruthyString(items[k].id) {
        DeleteCallsSnoc(done, items[k].id.value);
        deletes := deletes + [DeleteCall(items[k].id.value)];
        done := done + [items[k].id.value];
        if !DeleteSucceeds(results, sent) {
          StopAtFailure(ids, done, DeletableIds(items[k + 1..]), results);
          ok := false;
          return;
        }
        sent := sent + 1;
      }
      k := k + 1;
    }
    assert items[k..] == [];
    assert ids == done;
    NoFailedDelete(results, |ids|);
    ok := true;
  }

  // ---------------------------------------------------------------------
  // Duplicate detection (`debugCart.analyzeCart`)

  /** One entry of the itemId tally, in first-occurrence order. */
  datatype Entry = Entry(itemId: string, count: nat)

  /** `map.set(id, (map.get(id) || 0) + 1)` on an insertion-ordered map. */
  function Bump(entries: seq<Entry>, itemId: string): seq<Entry> {
    if entries == [] then [Entry(itemId, 1)]
    else if entries[0].itemId == itemId then [entries[0].(count := entries[0].count + 1)] + entries[1..]
    else [entries[0]] + Bump(entries[1..], itemId)
  }

  function Tally(items: seq<CartItem>): seq<Entry>
    decreases |items|
  {
    if items == [] then []
    else Bump(Tally(items[..|items| - 1]), items[|items| - 1].itemId)
  }

  /** The entries whose count exceeds one, in order. */
  function KeepRepeated(entries: seq<Entry>): (r: seq<Entry>)
    ensures forall e :: e in r <==> e in entries && e.count > 1
  {
    if entries == [] then []
    else if entries[0].count > 1 then [entries[0]] + KeepRepeated(entries[1..])
    else KeepRepeated(entries[1..])
  }

  /** The duplicates `analyzeCart` reports: `[itemId, count]` pairs. */
  function DuplicateItemIds(items: seq<CartItem>): seq<Entry> {
    KeepRepeated(Tally(items))
  }

  predicate DistinctKeys(entries: seq<Entry>) {
    forall i, j :: 0 <= i < j < |entries| ==> entries[i].itemId != entries[j].itemId
  }

  /** The count recorded for an itemId (0 when absent). */
  function Lookup(entries: seq<Entry>, itemId: string): nat {
    if entries == [] then 0
    else if entries[0].itemId == itemId then entries[0].count
    else Lookup(entries[1..], itemId)
  }

  predicate TallyShaped(entries: seq<Entry>) {
    && DistinctKeys(entries)
    && (forall i :: 0 <= i < |entries| ==> entries[i].count > 0)
  }

  lemma {:induction false} LookupEntry(entries: seq<Entry>, i: nat)
    requires DistinctKeys(entries) && i < |entries|
    ensures Lookup(entries, entries[i].itemId) == entries[i].count
  {
    if i > 0 {
      assert entries[0].itemId != entries[i].itemId;
      LookupEntry(entries[1..], i - 1);
    }
  }

  lemma {:induction false} LookupAbsent(entries: seq<Entry>, itemId: string)
    requires forall i :: 0 <= i < |entries| ==> entries[i].itemId != itemId
    ensures Lookup(entries, itemId) == 0
  {
    if entries != [] {
      LookupAbsent(entries[1..], itemId);
    }
  }

  /** One more occurrence of an itemId adds one to its count and nothing
      else, and keeps the tally well formed. */
  lemma {:induction false} BumpCounts(entries: seq<Entry>, itemId: string)
    requires TallyShaped(entries)
    ensures TallyShaped(Bump(entries, itemId))
    ensures Lookup(Bump(entries, itemId), itemId) == Lookup(entries, itemId) + 1
    ensures forall other :: other != itemId ==> Lookup(Bump(entries, itemId), other) == Lookup(entries, other)
    ensures forall e :: e in Bump(entries, itemId) ==> e.itemId == itemId || e in entries
  {
    if entries != [] {
      var tail := entries[1..];
      DistinctTail(entries);
      if entries[0].itemId != itemId {
        BumpCounts(tail, itemId);
        assert Bump(entries, itemId) == [entries[0]] + Bump(tail, itemId);
        ConsDistinct(entries[0], Bump(tail, itemId));
      } else {
        var first := entries[0].(count := entries[0].count + 1);
        assert Bump(entries, itemId) == [first] + tail;
        ConsDistinct(first, tail);
      }
    }
  }

  /** The tally counts every itemId exactly as often as it occurs. */
  lemma {:induction false} TallyCounts(items: seq<CartItem>)
    ensures TallyShaped(Tally(items))
    ensures forall id :: Lookup(Tally(items), id) == CountOf(items, id)
    decreases |items|
  {
    if items != [] {
      var n := |items| - 1;
      TallyCounts(items[..n]);
      BumpCounts(Tally(items[..n]), items[n].itemId);
      assert items == items[..n] + [items[n]];
      forall id ensures Lookup(Tally(items), id) == CountOf(items, id) {
        CountOfAppend(items[..n], [items[n]], id);
        CountOfSingle(items[n], id);
      }
    }
  }

  lemma DistinctTail(entries: seq<Entry>)
    requires DistinctKeys(entries) && entries != []
    ensures DistinctKeys(entries[1..])
    ensures forall e :: e in entries[1..] ==> e.itemId != entries[0].itemId
  {
    var tail := entries[1..];
    forall i, j | 0 <= i < j < |tail| ensures tail[i].itemId != tail[j].itemId {
      assert tail[i] == entries[i + 1] && tail[j] == entries[j + 1];
    }
    forall e | e in tail ensures e.itemId != entries[0].itemId {
      var m :| 0 <= m < |tail| && tail[m] == e;
      assert tail[m] == entries[m + 1];
    }
  }

  /** Putting an entry with a new key in front keeps the keys distinct. */
  lemma ConsDistinct(x: Entry, rest: seq<Entry>)
    requires DistinctKeys(rest)
    requires forall e :: e in rest ==> e.itemId != x.itemId
    ensures DistinctKeys([x] + rest)
  {
    var r := [x] + rest;
    forall i, j | 0 <= i < j < |r| ensures r[i].itemId != r[j].itemId {
      assert r[j] == rest[j - 1];
      if i > 0 {
        assert r[i] == rest[i - 1];
      }
    }
  }

  lemma {:induction false} KeepRepeatedDistinct(entries: seq<Entry>)
    requires DistinctKeys(entries)
    ensures DistinctKeys(KeepRepeated(entries))
  {
    if entries != [] {
      var tail := entries[1..];
      DistinctTail(entries);
      KeepRepeatedDistinct(tail);
      if entries[0].count > 1 {
        ConsDistinct(entries[0], KeepRepeated(tail));
      }
    }
  }

  /** `analyzeCart` reports exactly the itemIds that occur more than once,
      each once and with its number of lines. */
  lemma DuplicateItemIdsExact(items: seq<CartItem>)
    ensures forall e :: e in DuplicateItemIds(items) ==> e.count > 1 && e.count == CountOf(items, e.itemId)
    ensures forall id :: CountOf(items, id) > 1 ==> Entry(id, CountOf(items, id)) in DuplicateItemIds(items)
    ensures DistinctKeys(DuplicateItemIds(items))
  {
    var t := Tally(items);
    TallyCounts(items);
    KeepRepeatedDistinct(t);
    forall e | e in DuplicateItemIds(items) ensures e.count == CountOf(items, e.itemId) {
      var i :| 0 <= i < |t| && t[i] == e;
      LookupEntry(t, i);
    }
    forall id | CountOf(items, id) > 1 ensures Entry(id, CountOf(items, id)) in DuplicateItemIds(items) {
      if forall i :: 0 <= i < |t| ==> t[i].itemId != id {
        LookupAbsent(t, id);
        assert false;
      }
      var i :| 0 <= i < |t| && t[i].itemId == id;
      LookupEntry(t, i);
      assert t[i] == Entry(id, CountOf(items, id));
    }
  }
}
