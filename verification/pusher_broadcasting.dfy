/**
  The Pusher adapter (`BroadcastNotificationsModule`): the oldest copy of the
  push handling. It ignores Pusher's own `pusher:` events and turns every
  other event into a notification for the manager. Its fallback chains are
  shorter than the shared handler's, it only reads top-level extras, and it
  has no counter events: a `notification.marked-read` event is added like
  any other.

  The manager is represented by its list and counter, `None` being a module
  whose manager was never set.
 */
module BroadcastingModule {
  import opened JsValue
  import opened JsString
  import opened NotificationList
  import B = BroadcastingBase

  /** `data.title || eventName.replace(/\./g, ' ')`. */
  function Title(eventName: string, data: Value): (r: Value)
    ensures Truthy(Member(data, "title")) ==> r == Member(data, "title")
    ensures !Truthy(Member(data, "title")) ==> r == Str(ReplaceChar(eventName, '.', ' ')) && '.' !in r.s
  {
    ReplaceCharRemoves(eventName, '.', ' ');
    Or(Member(data, "title"), Str(ReplaceChar(eventName, '.', ' ')))
  }

  /** `data.message || data.body || ''`. */
  function Message(data: Value): (r: Value)
    ensures Truthy(r) <==> Truthy(Member(data, "message")) || Truthy(Member(data, "body"))
    ensures Truthy(Member(data, "message")) ==> r == Member(data, "message")
    ensures !Truthy(r) ==> r == Str("")
  {
    Or(Member(data, "message"), Or(Member(data, "body"), Str("")))
  }

  /** The extras, read from the top level of the payload only. */
  function TopLevelExtras(data: Value): (x: B.Extras)
    ensures x.icon == Member(data, "icon") && x.actions == Member(data, "actions")
    ensures Truthy(x.iconClass) <==> Truthy(Member(data, "icon_class")) || Truthy(Member(data, "iconClass"))
    ensures Truthy(x.actionUrl) <==> Truthy(Member(data, "action_url")) || Truthy(Member(data, "actionUrl"))
  {
    B.Extras(
      Member(data, "icon"),
      Or(Member(data, "icon_class"), Member(data, "iconClass")),
      Or(Member(data, "action_url"), Member(data, "actionUrl")),
      Member(data, "actions"))
  }

  /**
    The record this adapter builds: a `broadcast-` id, the short chains,
    `type` copied without a fallback, the legacy creation time and the
    top-level extras.
   */
  function Normalize(eventName: string, data: Value, env: B.Env): (r: Result<Record>)
    ensures Nullish(data) ==> r == Thrown(TypeError)
    ensures r.Ok? <==> !Nullish(data) && B.CreatedAtAsWritten(data, env).Ok?
                       && B.WriteExtras(B.DataSlot(data), TopLevelExtras(data)).Ok?
    ensures r.Ok? ==> r.value == B.Literal(B.IdFor(data, "broadcast-", env), Title(eventName, data), Message(data),
                                           Member(data, "type"), B.WriteExtras(B.DataSlot(data), TopLevelExtras(data)).value,
                                           B.CreatedAtAsWritten(data, env).value, Member(data, "actions"))
  {
    if Nullish(data) then Thrown(TypeError)
    else match B.CreatedAtAsWritten(data, env)
      case Thrown(e) => Thrown(e)
      case Ok(created) =>
        match B.WriteExtras(B.DataSlot(data), TopLevelExtras(data))
        case Thrown(e) => Thrown(e)
        case Ok(d) =>
          Ok(B.Literal(B.IdFor(data, "broadcast-", env), Title(eventName, data), Message(data), Member(data, "type"),
                       d, created, Member(data, "actions")))
  }

  /**
    `handleBroadcastEvent(eventName, data)` as written: parse a string
    payload (a failure drops the event), then normalize and add, whatever
    the event's name; a missing manager throws.
   */
  function HandleEvent(manager: Option<Feed>, eventName: string, raw: Value, env: B.Env): (r: B.Outcome)
    ensures B.ParsePayload(raw, env).None? ==> r == B.Done(manager)
    ensures B.ParsePayload(raw, env).Some? ==>
              var n := Normalize(eventName, B.ParsePayload(raw, env).value, env);
              && (n.Thrown? || manager.None? <==> r.Threw?)
              && (r.Threw? ==> r.store == manager)
              && (n.Ok? && manager.Some? ==> r == B.Done(Some(Add(manager.value, n.value))))
  {
    match B.ParsePayload(raw, env)
    case None => B.Done(manager)
    case Some(data) =>
      match Normalize(eventName, data, env)
      case Thrown(e) => B.Threw(e, manager)
      case Ok(n) => if manager.Some? then B.Done(Some(Add(manager.value, n))) else B.Threw(TypeError, None)
  }

  /** The global binding: events whose name starts with `pusher:` are Pusher's own and are ignored. */
  function OnGlobalEvent(manager: Option<Feed>, eventName: string, raw: Value, env: B.Env): (r: B.Outcome)
    ensures StartsWith(eventName, "pusher:") ==> r == B.Done(manager)
    ensures !StartsWith(eventName, "pusher:") ==> r == HandleEvent(manager, eventName, raw, env)
  {
    if StartsWith(eventName, "pusher:") then B.Done(manager) else HandleEvent(manager, eventName, raw, env)
  }

  /**
    The handler with the shared dispatch the other adapters have: the two
    counter events go to the shared counter updates, anything else is
    normalized and added as before.
   */
  function HandleEventDispatched(manager: Option<Feed>, eventName: string, raw: Value, env: B.Env): (r: B.Outcome)
    ensures B.ParsePayload(raw, env).None? ==> r == B.Done(manager)
    ensures B.ParsePayload(raw, env).Some? && eventName == B.MarkedRead ==>
              r == B.MarkAsReadUpdate(manager, B.ParsePayload(raw, env).value)
    ensures B.ParsePayload(raw, env).Some? && eventName == B.MarkedAllRead ==>
              r == B.MarkAllAsReadUpdate(manager, B.ParsePayload(raw, env).value)
    ensures eventName != B.MarkedRead && eventName != B.MarkedAllRead ==> r == HandleEvent(manager, eventName, raw, env)
  {
    match B.ParsePayload(raw, env)
    case None => B.Done(manager)
    case Some(data) =>
      if eventName == B.MarkedRead then B.MarkAsReadUpdate(manager, data)
      else if eventName == B.MarkedAllRead then B.MarkAllAsReadUpdate(manager, data)
      else HandleEvent(manager, eventName, raw, env)
  }

  // ----- properties -----

  /** Pusher's own events never change anything. */
  lemma PusherEventsIgnored(manager: Option<Feed>, rest: string, raw: Value, env: B.Env)
    ensures OnGlobalEvent(manager, "pusher:" + rest, raw, env) == B.Done(manager)
  {
    PrefixedStartsWith("pusher:", rest);
  }

  /** The normalized record's identity and text. */
  lemma NormalizeFields(eventName: string, data: Value, env: B.Env)
    requires Normalize(eventName, data, env).Ok?
    ensures var n := Normalize(eventName, data, env).value;
            && IdOf(n) == B.IdFor(data, "broadcast-", env)
            && Lookup(n, "title") == Title(eventName, data)
            && Lookup(n, "type") == Member(data, "type")
            && Lookup(n, "_source") == Str("broadcast")
            && IsUnread(n)
  {
    var d, created := B.WriteExtras(B.DataSlot(data), TopLevelExtras(data)).value, B.CreatedAtAsWritten(data, env).value;
    var id, t, m, k, a := B.IdFor(data, "broadcast-", env), Title(eventName, data), Message(data), Member(data, "type"), Member(data, "actions");
    B.LiteralNames(id, t, m, k, d, created, a);
    B.LiteralBody(id, t, m, k, d, created, a);
    B.LiteralSource(id, t, m, k, d, created, a);
  }

  /** Extras nested in the payload's `data` are not lifted: with no top-level extras, `data` is the slot unchanged. */
  lemma NestedExtrasIgnored(eventName: string, data: Value, env: B.Env)
    requires Normalize(eventName, data, env).Ok?
    requires !Truthy(Member(data, "icon")) && !Truthy(Member(data, "icon_class")) && !Truthy(Member(data, "iconClass"))
    requires !Truthy(Member(data, "action_url")) && !Truthy(Member(data, "actionUrl"))
    ensures Lookup(Normalize(eventName, data, env).value, "data") == B.DataSlot(data)
  {
    var d, created := B.WriteExtras(B.DataSlot(data), TopLevelExtras(data)).value, B.CreatedAtAsWritten(data, env).value;
    var id, t, m, k, a := B.IdFor(data, "broadcast-", env), Title(eventName, data), Message(data), Member(data, "type"), Member(data, "actions");
    B.LiteralData(id, t, m, k, d, created, a);
  }

  /** The payload the server sends when another tab marks notification 1 read, leaving four unread. */
  const MarkedReadPayload := Obj([Prop("notification_id", Num(1)), Prop("unread_count", Num(4))])

  lemma MarkedReadPayloadHasNoRecordFields()
    ensures Member(MarkedReadPayload, "id") == Undefined && Member(MarkedReadPayload, "data") == Undefined
    ensures Member(MarkedReadPayload, "created_at") == Undefined && Member(MarkedReadPayload, "timestamp") == Undefined
  {
    LookupAbsent(MarkedReadPayload.props, "id");
    LookupAbsent(MarkedReadPayload.props, "data");
    LookupAbsent(MarkedReadPayload.props, "created_at");
    LookupAbsent(MarkedReadPayload.props, "timestamp");
  }

  lemma MarkedReadPayloadHasNoExtras()
    ensures Member(MarkedReadPayload, "icon") == Undefined
    ensures Member(MarkedReadPayload, "icon_class") == Undefined && Member(MarkedReadPayload, "iconClass") == Undefined
    ensures Member(MarkedReadPayload, "action_url") == Undefined && Member(MarkedReadPayload, "actionUrl") == Undefined
  {
    LookupAbsent(MarkedReadPayload.props, "icon");
    LookupAbsent(MarkedReadPayload.props, "icon_class");
    LookupAbsent(MarkedReadPayload.props, "iconClass");
    LookupAbsent(MarkedReadPayload.props, "action_url");
    LookupAbsent(MarkedReadPayload.props, "actionUrl");
  }

  /** That payload normalizes to an unread record with a generated id. */
  lemma MarkedReadPayloadNormalizes(env: B.Env)
    ensures Normalize(B.MarkedRead, MarkedReadPayload, env).Ok?
    ensures IdOf(Normalize(B.MarkedRead, MarkedReadPayload, env).value) == Str("broadcast-" + env.suffix)
    ensures IsUnread(Normalize(B.MarkedRead, MarkedReadPayload, env).value)
  {
    MarkedReadPayloadHasNoRecordFields();
    MarkedReadPayloadHasNoExtras();
    NormalizeFields(B.MarkedRead, MarkedReadPayload, env);
  }

  /**
    Without a dispatch, a mark-read event from another tab is added as a new
    unread notification: the list grows and the counter goes up, where the
    shared handler removes the record and takes the server's count.
   */
  lemma MarkedReadBecomesNotification(f: Feed, env: B.Env)
    requires Consistent(f)
    requires !HasId(f.items, Str("broadcast-" + env.suffix))
    ensures var r := HandleEvent(Some(f), B.MarkedRead, MarkedReadPayload, env);
            && r.Done? && r.store.Some?
            && |r.store.value.items| == |f.items| + 1
            && r.store.value.unreadCount == f.unreadCount + 1
  {
    MarkedReadPayloadNormalizes(env);
    var n := Normalize(B.MarkedRead, MarkedReadPayload, env).value;
    assert B.ParsePayload(MarkedReadPayload, env) == Some(MarkedReadPayload);
    assert HandleEvent(Some(f), B.MarkedRead, MarkedReadPayload, env) == B.Done(Some(Add(f, n)));
  }

  /** The shared handler takes the same event as a counter update: the server's four. */
  lemma MarkedReadUpdatesCounter(f: Feed, env: B.Env)
    ensures B.HandleEvent(Some(f), B.MarkedRead, MarkedReadPayload, env).Done?
    ensures B.HandleEvent(Some(f), B.MarkedRead, MarkedReadPayload, env).store.value.unreadCount == 4
  {
    LookupFirst(MarkedReadPayload.props, 1, "unread_count");
    assert B.ParsePayload(MarkedReadPayload, env) == Some(MarkedReadPayload);
  }

  /** With the dispatch, a mark-read event never adds a record and keeps the ids unique, even when it throws. */
  lemma DispatchedMarkReadNeverAdds(f: Feed, raw: Value, env: B.Env)
    requires UniqueIds(f.items)
    ensures var r := HandleEventDispatched(Some(f), B.MarkedRead, raw, env);
            r.store.Some? && |r.store.value.items| <= |f.items| && UniqueIds(r.store.value.items)
  {
    var p := B.ParsePayload(raw, env);
    if p.Some? && !Nullish(p.value) {
      RemoveKeepsUnique(f, Member(p.value, "notification_id"));
    }
  }

  /** Every event keeps the manager's ids unique, whether it throws or not. */
  lemma HandleEventKeepsUnique(f: Feed, eventName: string, raw: Value, env: B.Env)
    requires UniqueIds(f.items)
    ensures var r := OnGlobalEvent(Some(f), eventName, raw, env);
            r.store.Some? && UniqueIds(r.store.value.items)
  {
    var p := B.ParsePayload(raw, env);
    if p.Some? && Normalize(eventName, p.value, env).Ok? {
      AddKeepsUnique(f, Normalize(eventName, p.value, env).value);
    }
  }

  /** Given the dispatch, this adapter would share the half-written mark-all-read on a null payload. */
  lemma DispatchedNullMarkAllRead(f: Feed, env: B.Env)
    requires f.unreadCount != 0
    ensures HandleEventDispatched(Some(f), B.MarkedAllRead, Null, env) == B.Threw(TypeError, Some(Feed([], f.unreadCount)))
    ensures !Consistent(Feed([], f.unreadCount))
  {
  }
}
