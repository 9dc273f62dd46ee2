/**
  The Mercure adapter: an older copy of the shared push handling that
  writes to the notification manager instead of the store. It differs from
  the shared handler in three places: generated ids start with `mercure-`,
  the creation time uses the legacy precedence, and a mark-read event
  decrements the counter on top of the removal.

  The manager is represented by its list and counter; the events it emits
  are left out. `None` is a module whose manager was never set.
 */
module MercureBroadcastingModule {
  import opened JsValue
  import opened NotificationList
  import B = BroadcastingBase

  /** The record the Mercure adapter builds: the shared chains, a `mercure-` id and the legacy time. */
  function Normalize(eventName: string, data: Value, env: B.Env): (r: Result<Record>)
    ensures Nullish(data) ==> r == Thrown(TypeError)
    ensures r.Ok? <==> !Nullish(data) && B.CreatedAtAsWritten(data, env).Ok?
                       && B.WriteExtras(B.DataSlot(data), B.NestedExtras(data)).Ok?
    ensures r.Ok? ==> r.value == B.Literal(B.IdFor(data, "mercure-", env), B.Title(eventName, data), B.Message(data),
                                           B.Kind(eventName, data), B.WriteExtras(B.DataSlot(data), B.NestedExtras(data)).value,
                                           B.CreatedAtAsWritten(data, env).value, B.NestedExtras(data).actions)
  {
    if Nullish(data) then Thrown(TypeError)
    else match B.CreatedAtAsWritten(data, env)
      case Thrown(e) => Thrown(e)
      case Ok(created) =>
        match B.WriteExtras(B.DataSlot(data), B.NestedExtras(data))
        case Thrown(e) => Thrown(e)
        case Ok(d) =>
          Ok(B.Literal(B.IdFor(data, "mercure-", env), B.Title(eventName, data), B.Message(data), B.Kind(eventName, data),
                       d, created, B.NestedExtras(data).actions))
  }

  /**
    `handleMarkAsReadUpdate(data)` as written: after the removal (which
    already decrements for an unread record) the counter becomes
    `unread_count || max(0, unreadCount - 1)`.
   */
  function MarkAsReadUpdate(manager: Option<Feed>, data: Value): (r: B.Outcome)
    ensures manager.None? ==> r == B.Done(None)
    ensures manager.Some? && Nullish(data) ==> r == B.Threw(TypeError, manager)
    ensures manager.Some? && !Nullish(data) ==> r.Done? && r.store.Some?
    ensures r.Done? && manager.Some? ==>
              var removed := Remove(manager.value, Member(data, "notification_id"));
              && r.store.value.items == removed.items
              && r.store.value.unreadCount == NumOr(Member(data, "unread_count"), Max0(removed.unreadCount - 1))
  {
    match manager
    case None => B.Done(None)
    case Some(f) =>
      if Nullish(data) then B.Threw(TypeError, manager)
      else
        var removed := Remove(f, Member(data, "notification_id"));
        B.Done(Some(removed.(unreadCount := NumOr(Member(data, "unread_count"), Max0(removed.unreadCount - 1)))))
  }

  /**
    `handleMarkAllAsReadUpdate(data)`: the same update as the shared handler,
    the list emptied before the payload is read.
   */
  function MarkAllAsReadUpdate(manager: Option<Feed>, data: Value): (r: B.Outcome)
    ensures r == B.MarkAllAsReadUpdate(manager, data)
    ensures manager.Some? ==> r.store.Some? && r.store.value.items == []
  {
    match manager
    case None => B.Done(None)
    case Some(f) =>
      var emptied := f.(items := []);
      if Nullish(data) then B.Threw(TypeError, Some(emptied))
      else B.Done(Some(emptied.(unreadCount := NumOr(Member(data, "unread_count"), 0))))
  }

  /**
    `handleBroadcastEvent(eventName, data)`: the shared dispatch, except that
    a new notification is handed to the manager without checking that there
    is one, which throws when there is not.
   */
  function HandleEvent(manager: Option<Feed>, eventName: string, raw: Value, env: B.Env): (r: B.Outcome)
    ensures B.ParsePayload(raw, env).None? ==> r == B.Done(manager)
    ensures B.ParsePayload(raw, env).Some? && eventName == B.MarkedRead ==>
              r == MarkAsReadUpdate(manager, B.ParsePayload(raw, env).value)
    ensures B.ParsePayload(raw, env).Some? && eventName == B.MarkedAllRead ==>
              r == B.MarkAllAsReadUpdate(manager, B.ParsePayload(raw, env).value)
    ensures B.ParsePayload(raw, env).Some? && eventName != B.MarkedRead && eventName != B.MarkedAllRead ==>
              var n := Normalize(eventName, B.ParsePayload(raw, env).value, env);
              && (n.Thrown? || manager.None? <==> r.Threw?)
              && (r.Threw? ==> r.store == manager)
              && (n.Ok? && manager.Some? ==> r == B.Done(Some(Add(manager.value, n.value))))
  {
    match B.ParsePayload(raw, env)
    case None => B.Done(manager)
    case Some(data) =>
      if eventName == B.MarkedRead then MarkAsReadUpdate(manager, data)
      else if eventName == B.MarkedAllRead then MarkAllAsReadUpdate(manager, data)
      else match Normalize(eventName, data, env)
        case Thrown(e) => B.Threw(e, manager)
        case Ok(n) => if manager.Some? then B.Done(Some(Add(manager.value, n))) else B.Threw(TypeError, None)
  }

  // ----- how it differs from the shared handler -----

  /**
    With a payload id and no `created_at`, the Mercure record is exactly
    the shared one: the adapters differ only in the generated id and the
    creation time.
   */
  lemma NormalizeMatchesBase(eventName: string, data: Value, env: B.Env)
    requires Truthy(Member(data, "id")) && !Truthy(Member(data, "created_at"))
    ensures Normalize(eventName, data, env) == B.Normalize(eventName, data, env)
  {
  }

  /** A generated Mercure id never collides with a generated shared-handler id. */
  lemma GeneratedIdsDiffer(data: Value, env: B.Env, env': B.Env)
    requires !Truthy(Member(data, "id"))
    ensures B.IdFor(data, "mercure-", env) != B.IdFor(data, "broadcast-", env')
  {
    var m, b := B.IdFor(data, "mercure-", env).s, B.IdFor(data, "broadcast-", env').s;
    assert m[0] == 'm' && b[0] == 'b';
  }

  /**
    The double decrement: marking an unread record read without a count
    takes two off a consistent counter (never below zero), so it no longer
    matches the list once two records were unread.
   */
  lemma MarkReadDecrementsTwice(f: Feed, id: Value)
    requires Consistent(f) && HasId(f.items, id) && IsUnread(f.items[IndexOf(f.items, id)])
    ensures var r := MarkAsReadUpdate(Some(f), Obj([Prop("notification_id", id)])).store.value;
            && r.unreadCount == Max0(f.unreadCount - 2)
            && (f.unreadCount >= 2 ==> r.unreadCount == CountUnread(r.items) - 1)
  {
    var data := Obj([Prop("notification_id", id)]);
    LookupAbsent(data.props, "unread_count");
    RemoveUnreadDecrementsByOne(f, id);
    RemoveKeepsCount(f, id);
  }

  /** A server count of zero is ignored: the counter falls back to the local decrement. */
  lemma MarkReadIgnoresZero(f: Feed, id: Value)
    ensures var data := Obj([Prop("notification_id", id), Prop("unread_count", Num(0))]);
            && MarkAsReadUpdate(Some(f), data).store.value.unreadCount == Max0(Remove(f, id).unreadCount - 1)
            && B.MarkAsReadUpdate(Some(f), data).store.value.unreadCount == 0
  {
    var data := Obj([Prop("notification_id", id), Prop("unread_count", Num(0))]);
    LookupFirst(data.props, 1, "unread_count");
  }

  /** The two-tab scenario: from two unread records, the Mercure adapter ends at zero where the shared one ends at one. */
  lemma CrossTabMarkRead(a: Record, b: Record)
    requires IdOf(a) == Num(1) && IdOf(b) == Num(2) && IsUnread(a) && IsUnread(b)
    ensures var f, data := Feed([a, b], 2), Obj([Prop("notification_id", Num(1))]);
            && MarkAsReadUpdate(Some(f), data) == B.Done(Some(Feed([b], 0)))
            && B.MarkAsReadUpdate(Some(f), data) == B.Done(Some(Feed([b], 1)))
  {
    B.CrossTabMarkRead(a, b);
    assert IndexOf([a, b], Num(1)) == 0;
    assert Without([a, b], 0) == [b];
  }

  /** Every event, including one that throws part-way, keeps the manager's ids unique. */
  lemma HandleEventKeepsUnique(f: Feed, eventName: string, raw: Value, env: B.Env)
    requires UniqueIds(f.items)
    ensures var r := HandleEvent(Some(f), eventName, raw, env);
            r.store.Some? && UniqueIds(r.store.value.items)
  {
    var p := B.ParsePayload(raw, env);
    if p.Some? {
      if eventName == B.MarkedRead {
        RemoveKeepsUnique(f, Member(p.value, "notification_id"));
      } else if eventName != B.MarkedAllRead && Normalize(eventName, p.value, env).Ok? {
        AddKeepsUnique(f, Normalize(eventName, p.value, env).value);
      }
    }
  }

  /**
    The Mercure adapter shares the half-written mark-all-read: a null payload
    throws with the manager's list already empty and its old counter kept.
   */
  lemma NullMarkAllReadBreaksCount(f: Feed, env: B.Env)
    requires f.unreadCount != 0
    ensures HandleEvent(Some(f), B.MarkedAllRead, Null, env) == B.Threw(TypeError, Some(Feed([], f.unreadCount)))
    ensures !Consistent(Feed([], f.unreadCount))
  {
  }

  /** A new notification pushed to a module without a manager throws and leaves it without one. */
  lemma NoManagerThrows(eventName: string, data: Value, env: B.Env)
    requires eventName != B.MarkedRead && eventName != B.MarkedAllRead && !data.Str?
    requires Normalize(eventName, data, env).Ok?
    ensures HandleEvent(None, eventName, data, env) == B.Threw(TypeError, None)
  {
  }
}
