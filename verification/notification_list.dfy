/**
  The notification list and unread counter that both the Alpine store
  (`items`/`unreadCount`) and the notification manager
  (`notifications`/`unreadCount`) keep, with the two writers they share
  verbatim: `addNotification` and `removeNotification`.
 */
module NotificationList {
  import opened JsValue

  /** A notification record: a plain object with `id`, `read_at`, `_source`, ... */
  type Record = Object

  function IdOf(n: Record): Value {
    Lookup(n, "id")
  }

  /** `!notification.read_at`: a null, missing or empty read time means unread. */
  predicate IsUnread(n: Record) {
    !Truthy(Lookup(n, "read_at"))
  }

  /** The number of unread records, the value the counter should track. */
  function CountUnread(items: seq<Record>): nat
  {
    if |items| == 0 then 0
    else (if IsUnread(items[0]) then 1 else 0) + CountUnread(items[1..])
  }

  predicate HasId(items: seq<Record>, id: Value) {
    exists i :: 0 <= i < |items| && IdOf(items[i]) == id
  }

  predicate UniqueIds(items: seq<Record>) {
    forall i, j :: 0 <= i < j < |items| ==> IdOf(items[i]) != IdOf(items[j])
  }

  /** `items.findIndex(n => n.id === id)`. */
  function IndexOf(items: seq<Record>, id: Value): (r: int)
    ensures -1 <= r < |items|
    ensures r == -1 <==> !HasId(items, id)
    ensures r >= 0 ==> IdOf(items[r]) == id
    ensures r >= 0 ==> forall j :: 0 <= j < r ==> IdOf(items[j]) != id
  {
    if |items| == 0 then -1
    else if IdOf(items[0]) == id then 0
    else
      var k := IndexOf(items[1..], id);
      assert HasId(items[1..], id) ==> HasId(items, id) by {
        if HasId(items[1..], id) {
          var j :| 0 <= j < |items[1..]| && IdOf(items[1..][j]) == id;
          assert IdOf(items[j + 1]) == id;
        }
      }
      assert HasId(items, id) ==> HasId(items[1..], id) by {
        if HasId(items, id) {
          var j :| 0 <= j < |items| && IdOf(items[j]) == id;
          assert IdOf(items[1..][j - 1]) == id;
        }
      }
      if k == -1 then -1 else k + 1
  }

  /** `items.splice(i, 1)`. */
  function Without(items: seq<Record>, i: nat): seq<Record>
    requires i < |items|
  {
    items[..i] + items[i + 1..]
  }

  datatype Feed = Feed(items: seq<Record>, unreadCount: int)

  /** The counter agrees with the list and ids are unique. */
  predicate Consistent(f: Feed) {
    f.unreadCount == CountUnread(f.items) && UniqueIds(f.items)
  }

  /** `notification._isNew = true`. */
  function MarkNew(n: Record): Record {
    Assign(n, "_isNew", Bool(true))
  }

  lemma MarkNewKeeps(n: Record)
    ensures IdOf(MarkNew(n)) == IdOf(n)
    ensures IsUnread(MarkNew(n)) == IsUnread(n)
  {
    LookupAssign(n, "_isNew", Bool(true), "id");
    LookupAssign(n, "_isNew", Bool(true), "read_at");
  }

  /** `Math.max(0, x)`. */
  function Max0(x: int): (r: int)
    ensures r >= 0 && r >= x
    ensures x >= 0 ==> r == x
  {
    if x > 0 then x else 0
  }

  /**
    `addNotification`: a record whose id is already listed is ignored;
    otherwise it is flagged new, put first, and counted when unread.
   */
  function Add(f: Feed, n: Record): (r: Feed)
    ensures HasId(f.items, IdOf(n)) ==> r == f
    ensures !HasId(f.items, IdOf(n)) ==>
              && r.items == [MarkNew(n)] + f.items
              && r.unreadCount == f.unreadCount + (if IsUnread(n) then 1 else 0)
  {
    if IndexOf(f.items, IdOf(n)) != -1 then f
    else Feed([MarkNew(n)] + f.items, if IsUnread(n) then f.unreadCount + 1 else f.unreadCount)
  }

  /**
    `removeNotification`: an absent id changes nothing; otherwise the first
    record with that id goes, and the counter drops by one (never below zero)
    when that record was unread.
   */
  function Remove(f: Feed, id: Value): (r: Feed)
    ensures !HasId(f.items, id) ==> r == f
    ensures HasId(f.items, id) ==>
              var i := IndexOf(f.items, id);
              && r.items == Without(f.items, i)
              && r.unreadCount == (if IsUnread(f.items[i]) then Max0(f.unreadCount - 1) else f.unreadCount)
  {
    var i := IndexOf(f.items, id);
    if i == -1 then f
    else
      var c := if IsUnread(f.items[i]) then Max0(f.unreadCount - 1) else f.unreadCount;
      Feed(Without(f.items, i), c)
  }

  // ----- counting -----

  lemma {:induction false} CountUnreadConcat(a: seq<Record>, b: seq<Record>)
    ensures CountUnread(a + b) == CountUnread(a) + CountUnread(b)
  {
    if |a| == 0 {
      assert a + b == b;
    } else {
      CountUnreadConcat(a[1..], b);
      assert (a + b)[1..] == a[1..] + b;
    }
  }

  lemma {:induction false} CountUnreadWithout(items: seq<Record>, i: nat)
    requires i < |items|
    ensures CountUnread(Without(items, i)) + (if IsUnread(items[i]) then 1 else 0) == CountUnread(items)
  {
    assert items == items[..i] + [items[i]] + items[i + 1..];
    CountUnreadConcat(items[..i] + [items[i]], items[i + 1..]);
    CountUnreadConcat(items[..i], [items[i]]);
    CountUnreadConcat(items[..i], items[i + 1..]);
  }

  lemma {:induction false} CountUnreadBound(items: seq<Record>)
    ensures CountUnread(items) <= |items|
  {
    if |items| > 0 {
      CountUnreadBound(items[1..]);
    }
  }

  // ----- the writers keep the counter equal to the number of unread records -----

  lemma AddKeepsCount(f: Feed, n: Record)
    requires f.unreadCount == CountUnread(f.items)
    ensures Add(f, n).unreadCount == CountUnread(Add(f, n).items)
  {
    if !HasId(f.items, IdOf(n)) {
      MarkNewKeeps(n);
      CountUnreadConcat([MarkNew(n)], f.items);
    }
  }

  lemma RemoveKeepsCount(f: Feed, id: Value)
    requires f.unreadCount == CountUnread(f.items)
    ensures Remove(f, id).unreadCount == CountUnread(Remove(f, id).items)
  {
    if HasId(f.items, id) {
      CountUnreadWithout(f.items, IndexOf(f.items, id));
    }
  }

  /** With a consistent counter the floor at zero never bites: an unread removal is exactly minus one. */
  lemma RemoveUnreadDecrementsByOne(f: Feed, id: Value)
    requires f.unreadCount == CountUnread(f.items)
    requires HasId(f.items, id) && IsUnread(f.items[IndexOf(f.items, id)])
    ensures Remove(f, id).unreadCount == f.unreadCount - 1
  {
    CountUnreadWithout(f.items, IndexOf(f.items, id));
  }

  lemma CounterStaysNonNegative(f: Feed, n: Record, id: Value)
    requires f.unreadCount >= 0
    ensures Add(f, n).unreadCount >= 0 && Remove(f, id).unreadCount >= 0
  {
  }

  // ----- ids stay unique -----

  /** Putting a record with a new id in front keeps the ids unique. */
  lemma PrependKeepsUnique(n: Record, items: seq<Record>)
    requires UniqueIds(items)
    requires forall j :: 0 <= j < |items| ==> IdOf(items[j]) != IdOf(n)
    ensures UniqueIds([n] + items)
  {
    var r := [n] + items;
    forall i, j | 0 <= i < j < |r|
      ensures IdOf(r[i]) != IdOf(r[j])
    {
      if i == 0 {
        assert r[j] == items[j - 1];
      } else {
        assert r[i] == items[i - 1] && r[j] == items[j - 1];
      }
    }
  }

  /** Filtering a list with unique ids leaves unique ids. */
  lemma {:induction false} FilterKeepsUnique(items: seq<Record>, p: Record -> bool)
    requires UniqueIds(items)
    ensures UniqueIds(Filter(items, p))
  {
    if |items| > 0 {
      FilterKeepsUnique(items[1..], p);
      var t := Filter(items[1..], p);
      var h := if p(items[0]) then [items[0]] else [];
      assert Filter(items, p) == h + t;
      if p(items[0]) {
        FilterMembers(items[1..], p);
        forall j | 0 <= j < |t|
          ensures IdOf(t[j]) != IdOf(items[0])
        {
          assert t[j] in items[1..];
          var m :| 0 <= m < |items[1..]| && items[1..][m] == t[j];
          assert items[m + 1] == t[j];
        }
        PrependKeepsUnique(items[0], t);
      }
    }
  }

  /** Two lists with unique ids and no id in common concatenate to a list with unique ids. */
  lemma ConcatKeepsUnique(a: seq<Record>, b: seq<Record>)
    requires UniqueIds(a) && UniqueIds(b)
    requires forall j :: 0 <= j < |b| ==> !HasId(a, IdOf(b[j]))
    ensures UniqueIds(a + b)
  {
    var r := a + b;
    forall i, j | 0 <= i < j < |r|
      ensures IdOf(r[i]) != IdOf(r[j])
    {
      if j < |a| {
        assert r[i] == a[i] && r[j] == a[j];
      } else if i >= |a| {
        assert r[i] == b[i - |a|] && r[j] == b[j - |a|];
      } else {
        assert r[i] == a[i] && r[j] == b[j - |a|];
      }
    }
  }

  lemma AddKeepsUnique(f: Feed, n: Record)
    requires UniqueIds(f.items)
    ensures UniqueIds(Add(f, n).items)
  {
    if !HasId(f.items, IdOf(n)) {
      MarkNewKeeps(n);
      PrependKeepsUnique(MarkNew(n), f.items);
    }
  }

  lemma WithoutKeepsUnique(items: seq<Record>, k: nat)
    requires k < |items| && UniqueIds(items)
    ensures UniqueIds(Without(items, k))
    ensures !HasId(Without(items, k), IdOf(items[k]))
  {
    var r := Without(items, k);
    forall i | 0 <= i < |r|
      ensures r[i] == items[if i < k then i else i + 1]
    {
    }
  }

  lemma RemoveKeepsUnique(f: Feed, id: Value)
    requires UniqueIds(f.items)
    ensures UniqueIds(Remove(f, id).items)
    ensures !HasId(Remove(f, id).items, id)
  {
    if HasId(f.items, id) {
      WithoutKeepsUnique(f.items, IndexOf(f.items, id));
    }
  }

  lemma AddIdempotent(f: Feed, n: Record)
    ensures Add(Add(f, n), n) == Add(f, n)
  {
    if !HasId(f.items, IdOf(n)) {
      MarkNewKeeps(n);
      assert IdOf(Add(f, n).items[0]) == IdOf(n);
    }
  }

  /** Removing twice is removing once, because ids are unique. */
  lemma RemoveIdempotent(f: Feed, id: Value)
    requires UniqueIds(f.items)
    ensures Remove(Remove(f, id), id) == Remove(f, id)
  {
    RemoveKeepsUnique(f, id);
  }

  // ----- any interleaving of the two writers -----

  datatype Edit = AddEdit(n: Record) | RemoveEdit(id: Value)

  function ApplyEdit(f: Feed, e: Edit): Feed {
    match e
    case AddEdit(n) => Add(f, n)
    case RemoveEdit(id) => Remove(f, id)
  }

  function ApplyEdits(f: Feed, es: seq<Edit>): Feed
    decreases |es|
  {
    if |es| == 0 then f else ApplyEdits(ApplyEdit(f, es[0]), es[1..])
  }

  /** Every sequence of adds and removes keeps the counter exact and the ids unique. */
  lemma {:induction false} EditsKeepConsistent(f: Feed, es: seq<Edit>)
    requires Consistent(f)
    ensures Consistent(ApplyEdits(f, es))
    decreases |es|
  {
    if |es| > 0 {
      match es[0] {
        case AddEdit(n) =>
          AddKeepsCount(f, n);
          AddKeepsUnique(f, n);
        case RemoveEdit(id) =>
          RemoveKeepsCount(f, id);
          RemoveKeepsUnique(f, id);
      }
      EditsKeepConsistent(ApplyEdit(f, es[0]), es[1..]);
    }
  }
}
