/** Values shared by every part of the cart model: the cart line, the
    request that adds one, the failure-carrying wrappers, and the list
    operations that the client, the mock server and the reducer all apply
    to a cart by `itemId`. */
module CartItems {

  datatype Option<+T> = None | Some(value: T)

  datatype Result<+T, +E> = Ok(value: T) | Err(error: E)

  datatype Outcome<+E> = Pass | Fail(error: E)

  /** A line of a cart. `id` is the persistence identifier a remote store
      may assign; lines are addressed by `itemId`. Prices are integer
      amounts (0 plays the part of an absent price). */
  datatype CartItem = CartItem(
    id: Option<string>,
    itemId: string,
    quantity: int,
    price: int,
    name: string,
    imageUrl: Option<string>)

  /** The body a client sends to add an item: `quantity` and `imageUrl`
      may be left out. */
  datatype AddRequest = AddRequest(
    itemId: string,
    name: string,
    price: int,
    quantity: Option<int>,
    imageUrl: Option<string>)

  /** JavaScript truthiness of an optional number (`undefined` and 0 are falsy). */
  predicate TruthyNumber(x: Option<int>) {
    x.Some? && x.value != 0
  }

  /** JavaScript truthiness of an optional string (`undefined` and "" are falsy). */
  predicate TruthyString(x: Option<string>) {
    x.Some? && x.value != ""
  }

  /** The expression `quantity || 1`. */
  function QuantityOrOne(q: Option<int>): int {
    if TruthyNumber(q) then q.value else 1
  }

  // ---------------------------------------------------------------------
  // Counting and filtering lines by itemId

  /** Number of lines with the given itemId. */
  function CountOf(items: seq<CartItem>, itemId: string): nat {
    if items == [] then 0
    else (if items[0].itemId == itemId then 1 else 0) + CountOf(items[1..], itemId)
  }

  /** Total quantity held by the lines with the given itemId. */
  function QuantityOf(items: seq<CartItem>, itemId: string): int {
    if items == [] then 0
    else (if items[0].itemId == itemId then items[0].quantity else 0) + QuantityOf(items[1..], itemId)
  }

  /** `items.filter(item => item.itemId !== itemId)`. */
  function WithoutItem(items: seq<CartItem>, itemId: string): (r: seq<CartItem>)
    ensures |r| == |items| - CountOf(items, itemId)
    ensures CountOf(r, itemId) == 0
  {
    if items == [] then []
    else if items[0].itemId == itemId then WithoutItem(items[1..], itemId)
    else [items[0]] + WithoutItem(items[1..], itemId)
  }

  /** The filter keeps exactly the lines of other itemIds. */
  lemma {:induction false} WithoutItemMembers(items: seq<CartItem>, itemId: string)
    ensures forall x :: x in WithoutItem(items, itemId) <==> x in items && x.itemId != itemId
  {
    if items != [] {
      WithoutItemMembers(items[1..], itemId);
      assert forall x :: x in items <==> x == items[0] || x in items[1..];
    }
  }

  /** At most one line per itemId. */
  predicate UniqueIds(items: seq<CartItem>) {
    forall i, j :: 0 <= i < j < |items| ==> items[i].itemId != items[j].itemId
  }

  /** `findIndex(item => item.itemId === itemId)`: the first matching
      position, or -1. */
  function IndexOf(items: seq<CartItem>, itemId: string): (i: int)
    ensures -1 <= i < |items|
    ensures 0 <= i ==> items[i].itemId == itemId
    ensures forall j :: 0 <= j < |items| && (i < 0 || j < i) ==> items[j].itemId != itemId
  {
    if items == [] then -1
    else if items[0].itemId == itemId then 0
    else
      var k := IndexOf(items[1..], itemId);
      if k < 0 then -1 else k + 1
  }

  lemma {:induction false} CountOfAppend(a: seq<CartItem>, b: seq<CartItem>, itemId: string)
    ensures CountOf(a + b, itemId) == CountOf(a, itemId) + CountOf(b, itemId)
    ensures QuantityOf(a + b, itemId) == QuantityOf(a, itemId) + QuantityOf(b, itemId)
  {
    if a == [] {
      assert a + b == b;
    } else {
      var ab := a + b;
      assert ab[0] == a[0] && ab[1..] == a[1..] + b;
      CountOfAppend(a[1..], b, itemId);
      assert CountOf(ab, itemId) == (if a[0].itemId == itemId then 1 else 0) + CountOf(a[1..] + b, itemId);
      assert QuantityOf(ab, itemId) == (if a[0].itemId == itemId then a[0].quantity else 0) + QuantityOf(a[1..] + b, itemId);
    }
  }

  lemma {:induction false} WithoutItemAppend(a: seq<CartItem>, b: seq<CartItem>, itemId: string)
    ensures WithoutItem(a + b, itemId) == WithoutItem(a, itemId) + WithoutItem(b, itemId)
  {
    if a == [] {
      assert a + b == b;
    } else {
      var ab := a + b;
      assert ab[0] == a[0] && ab[1..] == a[1..] + b;
      WithoutItemAppend(a[1..], b, itemId);
      if a[0].itemId != itemId {
        calc {
          WithoutItem(ab, itemId);
          [a[0]] + WithoutItem(a[1..] + b, itemId);
          [a[0]] + (WithoutItem(a[1..], itemId) + WithoutItem(b, itemId));
          ([a[0]] + WithoutItem(a[1..], itemId)) + WithoutItem(b, itemId);
        }
      }
    }
  }

  lemma CountOfSingle(x: CartItem, itemId: string)
    ensures CountOf([x], itemId) == if x.itemId == itemId then 1 else 0
    ensures QuantityOf([x], itemId) == if x.itemId == itemId then x.quantity else 0
    ensures WithoutItem([x], itemId) == if x.itemId == itemId then [] else [x]
  {
    assert [x][1..] == [];
  }

  /** Replacing one line by another with the same itemId keeps the number
      of lines per itemId, changes that itemId's total quantity by the
      difference, and leaves every other line where it was. */
  lemma {:induction false} ReplaceLine(items: seq<CartItem>, i: nat, x: CartItem, itemId: string)
    requires i < |items| && x.itemId == items[i].itemId == itemId
    ensures CountOf(items[i := x], itemId) == CountOf(items, itemId)
    ensures QuantityOf(items[i := x], itemId) == QuantityOf(items, itemId) - items[i].quantity + x.quantity
    ensures WithoutItem(items[i := x], itemId) == WithoutItem(items, itemId)
    ensures forall other :: other != itemId ==>
              CountOf(items[i := x], other) == CountOf(items, other) &&
              QuantityOf(items[i := x], other) == QuantityOf(items, other)
  {
    var pre, post := items[..i], items[i + 1..];
    assert items == pre + [items[i]] + post;
    assert items[i := x] == pre + [x] + post;
    CountOfAppend(pre + [items[i]], post, itemId);
    CountOfAppend(pre, [items[i]], itemId);
    CountOfAppend(pre + [x], post, itemId);
    CountOfAppend(pre, [x], itemId);
    WithoutItemAppend(pre + [items[i]], post, itemId);
    WithoutItemAppend(pre, [items[i]], itemId);
    WithoutItemAppend(pre + [x], post, itemId);
    WithoutItemAppend(pre, [x], itemId);
    CountOfSingle(items[i], itemId);
    CountOfSingle(x, itemId);
    forall other | other != itemId
      ensures CountOf(items[i := x], other) == CountOf(items, other)
      ensures QuantityOf(items[i := x], other) == QuantityOf(items, other)
    {
      CountOfAppend(pre + [items[i]], post, other);
      CountOfAppend(pre, [items[i]], other);
      CountOfAppend(pre + [x], post, other);
      CountOfAppend(pre, [x], other);
      CountOfSingle(items[i], other);
      CountOfSingle(x, other);
    }
  }

  /** Appending a line with a new itemId adds exactly one line for it and
      leaves the other itemIds' lines as they were. */
  lemma AppendLine(items: seq<CartItem>, x: CartItem)
    ensures CountOf(items + [x], x.itemId) == CountOf(items, x.itemId) + 1
    ensures QuantityOf(items + [x], x.itemId) == QuantityOf(items, x.itemId) + x.quantity
    ensures WithoutItem(items + [x], x.itemId) == WithoutItem(items, x.itemId)
    ensures forall other :: other != x.itemId ==>
              CountOf(items + [x], other) == CountOf(items, other) &&
              QuantityOf(items + [x], other) == QuantityOf(items, other)
  {
    CountOfAppend(items, [x], x.itemId);
    WithoutItemAppend(items, [x], x.itemId);
    CountOfSingle(x, x.itemId);
    forall other | other != x.itemId
      ensures CountOf(items + [x], other) == CountOf(items, other)
      ensures QuantityOf(items + [x], other) == QuantityOf(items, other)
    {
      CountOfAppend(items, [x], other);
      CountOfSingle(x, other);
    }
  }

  /** "At most one line per itemId" is the same as "every itemId is counted
      at most once". */
  lemma {:induction false} UniqueIdsIffCount(items: seq<CartItem>)
    ensures UniqueIds(items) <==> forall id :: CountOf(items, id) <= 1
  {
    if items == [] {
    } else {
      var tail := items[1..];
      UniqueIdsIffCount(tail);
      if UniqueIds(items) {
        assert UniqueIds(tail) by {
          forall i, j | 0 <= i < j < |tail| ensures tail[i].itemId != tail[j].itemId {
            assert tail[i] == items[i + 1] && tail[j] == items[j + 1];
          }
        }
        forall id ensures CountOf(items, id) <= 1 {
          assert CountOf(items, id) == (if items[0].itemId == id then 1 else 0) + CountOf(tail, id);
          assert CountOf(tail, id) <= 1;
          if items[0].itemId == id {
            forall k | 0 <= k < |tail| ensures tail[k].itemId != id {
              assert tail[k] == items[k + 1];
            }
            NotInCountZero(tail, id);
          }
        }
      } else {
        var i, j :| 0 <= i < j < |items| && items[i].itemId == items[j].itemId;
        var id := items[i].itemId;
        if i == 0 {
          CountPositive(tail, j - 1, id);
          assert CountOf(items, id) >= 2;
        } else {
          assert !UniqueIds(tail) by {
            assert tail[i - 1] == items[i] && tail[j - 1] == items[j];
          }
          var id' :| CountOf(tail, id') > 1;
          assert CountOf(items, id') > 1;
        }
      }
    }
  }

  lemma {:induction false} NotInCountZero(items: seq<CartItem>, id: string)
    requires forall k :: 0 <= k < |items| ==> items[k].itemId != id
    ensures CountOf(items, id) == 0
  {
    if items != [] {
      NotInCountZero(items[1..], id);
    }
  }

  lemma {:induction false} CountPositive(items: seq<CartItem>, k: nat, id: string)
    requires k < |items| && items[k].itemId == id
    ensures CountOf(items, id) >= 1
  {
    if k > 0 {
      CountPositive(items[1..], k - 1, id);
    }
  }

  /** An itemId with no line holds no quantity. */
  lemma {:induction false} CountZeroQuantity(items: seq<CartItem>, id: string)
    requires CountOf(items, id) == 0
    ensures QuantityOf(items, id) == 0
  {
    if items != [] {
      CountZeroQuantity(items[1..], id);
    }
  }

  /** An itemId with exactly one line holds that line's quantity. */
  lemma {:induction false} SingleLineQuantity(items: seq<CartItem>, i: nat, id: string)
    requires i < |items| && items[i].itemId == id && CountOf(items, id) == 1
    ensures QuantityOf(items, id) == items[i].quantity
  {
    if i == 0 {
      CountZeroQuantity(items[1..], id);
    } else {
      CountPositive(items[1..], i - 1, id);
      SingleLineQuantity(items[1..], i - 1, id);
    }
  }

  /** A line is present for an itemId exactly when it is counted. */
  lemma {:induction false} IndexOfIffCount(items: seq<CartItem>, id: string)
    ensures IndexOf(items, id) >= 0 <==> CountOf(items, id) > 0
  {
    var i := IndexOf(items, id);
    if i >= 0 {
      CountPositive(items, i, id);
    } else {
      NotInCountZero(items, id);
    }
  }

  /** Filtering lines out keeps "at most one line per itemId". */
  lemma {:induction false} WithoutItemKeepsUnique(items: seq<CartItem>, itemId: string)
    requires UniqueIds(items)
    ensures UniqueIds(WithoutItem(items, itemId))
  {
    UniqueIdsIffCount(items);
    var r := WithoutItem(items, itemId);
    forall id ensures CountOf(r, id) <= 1 {
      WithoutItemCount(items, itemId, id);
    }
    UniqueIdsIffCount(r);
  }

  lemma {:induction false} WithoutItemCount(items: seq<CartItem>, itemId: string, id: string)
    ensures CountOf(WithoutItem(items, itemId), id) <= CountOf(items, id)
  {
    if items != [] {
      WithoutItemCount(items[1..], itemId, id);
      if items[0].itemId != itemId {
        assert WithoutItem(items, itemId) == [items[0]] + WithoutItem(items[1..], itemId);
        CountOfAppend([items[0]], WithoutItem(items[1..], itemId), id);
        CountOfSingle(items[0], id);
      }
    }
  }

  /** Removing an itemId that no line carries changes nothing. */
  lemma {:induction false} WithoutAbsentItem(items: seq<CartItem>, itemId: string)
    requires CountOf(items, itemId) == 0
    ensures WithoutItem(items, itemId) == items
  {
    if items != [] {
      WithoutAbsentItem(items[1..], itemId);
    }
  }

  // ---------------------------------------------------------------------
  // Strings

  /** `haystack.includes(needle)`. */
  predicate Contains(haystack: string, needle: string) {
    exists i :: 0 <= i <= |haystack| - |needle| && OccursAt(haystack, needle, i)
  }

  predicate OccursAt(haystack: string, needle: string, i: int) {
    0 <= i <= |haystack| - |needle| && haystack[i..i + |needle|] == needle
  }

  /** `toLowerCase()` on the ASCII letters; every other character is kept. */
  function ToLower(s: string): (r: string)
    ensures |r| == |s|
  {
    seq(|s|, i requires 0 <= i < |s| => if 'A' <= s[i] <= 'Z' then (s[i] as int + 32) as char else s[i])
  }

  /** `path.split("/").pop()`: the text after the last '/'. */
  function LastSegment(path: string): (r: string)
    ensures |r| <= |path|
    ensures '/' !in r
    ensures r == path[|path| - |r|..]
    ensures |r| < |path| ==> path[|path| - |r| - 1] == '/'
  {
    if path == [] then ""
    else if path[|path| - 1] == '/' then ""
    else LastSegment(path[..|path| - 1]) + [path[|path| - 1]]
  }
}
