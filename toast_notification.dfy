/** The list logic of the toast notifier (`ToastNotification`): an enable
    flag and the array of shown toasts. Rendering, styles and auto-close
    timers are not part of it; a toast's id and timestamp are supplied by
    the caller. */
module ToastNotifications {
  import opened CartItems

  datatype ToastType =
    | Success
    | Error
    | Info
    | Warning
    | Unlisted(tag: string)   // a value outside the declared union, reachable only by a cast

  datatype Toast = Toast(id: string, kind: ToastType, message: string, title: Option<string>, timestamp: int)

  /** `getDefaultTitle`. */
  function DefaultTitle(kind: ToastType): (title: string)
    ensures kind.Unlisted? <==> title == "Notification"
    ensures title in {"Success", "Error", "Information", "Warning", "Notification"}
  {
    match kind
    case Success => "Success"
    case Error => "Error"
    case Info => "Information"
    case Warning => "Warning"
    case Unlisted(_) => "Notification"
  }

  /** The four declared types get four different titles. */
  lemma DefaultTitlesDistinct(a: ToastType, b: ToastType)
    requires !a.Unlisted? && !b.Unlisted? && a != b
    ensures DefaultTitle(a) != DefaultTitle(b)
  {
  }

  /** The heading a toast is rendered with: `title || getDefaultTitle(type)`. */
  function HeaderTitle(t: Toast): (h: string)
    ensures TruthyString(t.title) ==> h == t.title.value
    ensures !TruthyString(t.title) ==> h == DefaultTitle(t.kind)
  {
    if TruthyString(t.title) then t.title.value else DefaultTitle(t.kind)
  }

  predicate DistinctIds(toasts: seq<Toast>) {
    forall i, j :: 0 <= i < j < |toasts| ==> toasts[i].id != toasts[j].id
  }

  function IdsOf(toasts: seq<Toast>): set<string> {
    set t | t in toasts :: t.id
  }

  /** `findIndex(t => t.id === id)`. */
  function IndexOfId(toasts: seq<Toast>, id: string): (i: int)
    ensures -1 <= i < |toasts|
    ensures i >= 0 ==> toasts[i].id == id
    ensures forall j :: 0 <= j < |toasts| && (i < 0 || j < i) ==> toasts[j].id != id
  {
    if toasts == [] then -1
    else if toasts[0].id == id then 0
    else
      var k := IndexOfId(toasts[1..], id);
      if k < 0 then -1 else k + 1
  }

  /** The toasts at odd positions, in order: what `clear` leaves. */
  function OddPositions(s: seq<Toast>): (r: seq<Toast>)
    ensures |r| == |s| / 2
    ensures forall i :: 0 <= i < |r| ==> r[i] == s[2 * i + 1]
  {
    seq(|s| / 2, i requires 0 <= i < |s| / 2 => s[2 * i + 1])
  }

  /** Removing one position keeps the ids distinct. */
  lemma RemoveAtKeepsDistinct(s: seq<Toast>, i: nat)
    requires DistinctIds(s) && i < |s|
    ensures DistinctIds(s[..i] + s[i + 1..])
  {
    var r := s[..i] + s[i + 1..];
    forall a, b | 0 <= a < b < |r| ensures r[a].id != r[b].id {
      var a' := if a < i then a else a + 1;
      var b' := if b < i then b else b + 1;
      assert r[a] == s[a'] && r[b] == s[b'];
    }
  }

  /** Every toast left after removing position `i` was in `s` away from `i`. */
  lemma RemovedAtLeavesOthers(s: seq<Toast>, i: nat, t: Toast)
    requires i < |s| && t in s[..i] + s[i + 1..]
    ensures exists a :: 0 <= a < |s| && a != i && s[a] == t
  {
    var r := s[..i] + s[i + 1..];
    var a :| 0 <= a < |r| && r[a] == t;
    if a < i {
      assert r[a] == s[a];
    } else {
      assert r[a] == s[a + 1];
    }
  }

  /** Every toast of `s` away from position `i` is left after removing it. */
  lemma RemovedAtKeepsOthers(s: seq<Toast>, i: nat, a: nat)
    requires i < |s| && a < |s| && a != i
    ensures s[a] in s[..i] + s[i + 1..]
  {
    var r := s[..i] + s[i + 1..];
    if a < i {
      assert r[a] == s[a];
    } else {
      assert r[a - 1] == s[a];
    }
  }

  /** With distinct ids, removing the toast with a given id keeps exactly
      the others. */
  lemma RemoveByIdExact(s: seq<Toast>, id: string)
    requires DistinctIds(s)
    requires IndexOfId(s, id) >= 0
    ensures var i := IndexOfId(s, id);
      forall t :: t in s[..i] + s[i + 1..] <==> t in s && t.id != id
  {
    var i := IndexOfId(s, id);
    var r := s[..i] + s[i + 1..];
    forall t ensures t in r <==> t in s && t.id != id {
      if t in r {
        RemovedAtLeavesOthers(s, i, t);
        var a :| 0 <= a < |s| && a != i && s[a] == t;
        assert s[a].id != s[i].id;
      }
      if t in s && t.id != id {
        var a :| 0 <= a < |s| && s[a] == t;
        RemovedAtKeepsOthers(s, i, a);
      }
    }
  }

  /** After `removed` visits of `clear` over `orig`: the toasts at odd
      positions below `2 * removed`, then the unvisited rest. */
  predicate ClearedUpTo(toasts: seq<Toast>, orig: seq<Toast>, removed: nat) {
    && removed <= |orig|
    && |toasts| == |orig| - removed
    && (forall i :: 0 <= i < removed && i < |toasts| ==> toasts[i] == orig[2 * i + 1])
    && (forall i :: removed <= i < |toasts| ==> toasts[i] == orig[i + removed])
  }

  lemma ClearStep(toasts: seq<Toast>, orig: seq<Toast>, k: nat)
    requires ClearedUpTo(toasts, orig, k) && k < |toasts|
    ensures ClearedUpTo(toasts[..k] + toasts[k + 1..], orig, k + 1)
  {
    var r := toasts[..k] + toasts[k + 1..];
    forall i | 0 <= i < k + 1 && i < |r| ensures r[i] == orig[2 * i + 1] {
      if i < k {
        assert r[i] == toasts[i];
      } else {
        assert r[i] == toasts[k + 1];
      }
    }
    forall i | k + 1 <= i < |r| ensures r[i] == orig[i + k + 1] {
      assert r[i] == toasts[i + 1];
    }
  }

  lemma ClearDone(toasts: seq<Toast>, orig: seq<Toast>, removed: nat)
    requires ClearedUpTo(toasts, orig, removed)
    requires 2 * removed >= |orig| && 2 * removed <= |orig| + 1
    ensures toasts == OddPositions(orig)
  {
  }

  /** With distinct ids, a toast is found at its own position. */
  lemma IndexOfDistinct(s: seq<Toast>, k: nat)
    requires DistinctIds(s) && k < |s|
    ensures IndexOfId(s, s[k].id) == k
  {
  }

  class ToastNotification {
    var toasts: seq<Toast>
    var isEnabled: bool

    /** No two shown toasts share an id. */
    predicate Valid()
      reads this
    {
      DistinctIds(toasts)
    }

    constructor ()
      ensures Valid() && toasts == [] && isEnabled
    {
      toasts := [];
      isEnabled := true;
    }

    /** `show`: when enabled, appends one toast and returns its id;
        `freshId` and `now` stand for the generated id and the clock. */
    method Show(kind: ToastType, message: string, title: Option<string>, freshId: string, now: int)
      returns (id: Option<string>)
      requires Valid()
      requires freshId !in IdsOf(toasts)
      modifies this`toasts
      ensures Valid()
      ensures !isEnabled ==> id == None && toasts == old(toasts)
      ensures isEnabled ==>
        id == Some(freshId) && toasts == old(toasts) + [Toast(freshId, kind, message, title, now)]
    {
      if !isEnabled {
        return None;
      }
      var toast := Toast(freshId, kind, message, title, now);
      forall i | 0 <= i < |toasts| ensures toasts[i].id != freshId {
        assert toasts[i] in toasts;
      }
      toasts := toasts + [toast];
      id := Some(toast.id);
    }

    /** `removeToast` (and the public `remove`): splices out the first toast
        with the id; an unknown id changes nothing. */
    method RemoveToast(id: string)
      requires Valid()
      modifies this`toasts
      ensures Valid()
      ensures IndexOfId(old(toasts), id) < 0 ==> toasts == old(toasts)
      ensures IndexOfId(old(toasts), id) >= 0 ==>
        var i := IndexOfId(old(toasts), id);
        && toasts == old(toasts)[..i] + old(toasts)[i + 1..]
        && (forall t :: t in toasts <==> t in old(toasts) && t.id != id)
    {
      var toastIndex := IndexOfId(toasts, id);
      if toastIndex == -1 {
        return;
      }
      RemoveAtKeepsDistinct(toasts, toastIndex);
      RemoveByIdExact(toasts, id);
      toasts := toasts[..toastIndex] + toasts[toastIndex + 1..];
    }

    /** `clear`: `forEach` over the live array while each visit splices the
        visited toast out. `forEach` stops at the original length and
        skips positions the shrinking array no longer has, so the visits
        land on the toasts at even original positions: the toasts at odd
        positions stay. */
    method Clear()
      requires Valid()
      modifies this`toasts
      ensures Valid()
      ensures toasts == OddPositions(old(toasts))
    {
      ghost var orig := toasts;
      ghost var removed := 0;
      var n := |toasts|;
      var k := 0;
      while k < n
        invariant 0 <= removed <= k <= n
        invariant removed == k || 2 * removed >= n
        invariant 2 * removed <= n + 1
        invariant Valid()
        invariant ClearedUpTo(toasts, orig, removed)
      {
        if k < |toasts| {
          var visited := toasts[k];
          IndexOfDistinct(toasts, k);
          ghost var before := toasts;
          RemoveToast(visited.id);
          ClearStep(before, orig, k);
          removed := removed + 1;
        }
        k := k + 1;
      }
      ClearDone(toasts, orig, removed);
    }

    method Enable()
      modifies this`isEnabled
      ensures isEnabled
    {
      isEnabled := true;
    }

    /** `disable`: turns showing off, then runs `clear`. */
    method Disable()
      requires Valid()
      modifies this`isEnabled, this`toasts
      ensures Valid()
      ensures !isEnabled
      ensures toasts == OddPositions(old(toasts))
    {
      isEnabled := false;
      Clear();
    }

    method IsNotificationsEnabled() returns (enabled: bool)
      ensures enabled == isEnabled
    {
      enabled := isEnabled;
    }

    /** `getToasts`: a copy; a sequence is a value, so nothing the caller
        does to it reaches `toasts`. */
    method GetToasts() returns (copy: seq<Toast>)
      ensures copy == toasts
    {
      copy := toasts;
    }
  }

  /** After `disable`, showing is off and `clear` has left half of the
      toasts (rounded down): a list of two or more is not emptied. */
  method DisableLeavesHalf(n: ToastNotification) returns (left: nat)
    requires n.Valid()
    modifies n
    ensures left == |old(n.toasts)| / 2 && left == |n.toasts|
    ensures |old(n.toasts)| >= 2 ==> n.toasts != []
    ensures !n.isEnabled
  {
    n.Disable();
    left := |n.toasts|;
  }
}
