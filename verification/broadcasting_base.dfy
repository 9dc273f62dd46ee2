/**
  The shared handling of real-time push events: a raw payload (possibly JSON
  text) is either a counter update — `notification.marked-read`,
  `notification.marked-all-read` — or becomes a notification record that is
  added to the store.

  The store is the list and counter of `NotificationList`; `None` stands for
  a handler that has no store yet. A handler's `Outcome` is the store it
  leaves behind, and an exception that escapes carries the store as it then
  stands: most throws happen before the first write, but a
  `notification.marked-all-read` event with a null payload empties the list
  before reading the count, so the old counter stays behind a list that no
  longer holds what it counts. JSON parsing, `Date` formatting, the clock and
  the random id suffix are the fields of `Env`.
 */
module BroadcastingBase {
  import opened JsValue
  import opened JsString
  import opened NotificationList

  /** What a handler takes from its surroundings. */
  datatype Env = Env(
    /** `JSON.parse`, which fails on malformed text. */
    parseJson: string -> Option<Value>,
    /** `new Date(t * 1000).toISOString()` for a defined `t`; `None` when the date is invalid. */
    isoOfSeconds: Value -> Option<string>,
    /** `new Date().toISOString()`. */
    now: string,
    /** The `${Date.now()}-${random}` part of a generated id. */
    suffix: string)

  /** What a handler leaves behind; an exception that escapes still leaves whatever it had written. */
  datatype Outcome =
    | Done(store: Option<Feed>)
    | Threw(error: JsError, store: Option<Feed>)

  const MarkedRead := "notification.marked-read"
  const MarkedAllRead := "notification.marked-all-read"

  /** A string payload is parsed as JSON; `None` means it could not be and the event is dropped. */
  function ParsePayload(raw: Value, env: Env): (r: Option<Value>)
    ensures !raw.Str? ==> r == Some(raw)
    ensures raw.Str? ==> r == env.parseJson(raw.s)
  {
    if raw.Str? then env.parseJson(raw.s) else Some(raw)
  }

  /** `new Date(ts * 1000).toISOString()`: `undefined * 1000` is NaN, an invalid date, so that always throws. */
  function FromTimestamp(ts: Value, env: Env): (r: Result<Value>)
    ensures ts == Undefined ==> r == Thrown(RangeError)
    ensures r.Thrown? ==> r.error == RangeError
    ensures r.Ok? <==> ts != Undefined && env.isoOfSeconds(ts).Some?
    ensures r.Ok? ==> r.value == Str(env.isoOfSeconds(ts).value)
  {
    if ts == Undefined then Thrown(RangeError)
    else match env.isoOfSeconds(ts)
      case None => Thrown(RangeError)
      case Some(iso) => Ok(Str(iso))
  }

  /**
    The creation time of a pushed notification: the payload's own
    `created_at` when it has one, else its `timestamp` (in seconds), else now.
   */
  function CreatedAt(data: Value, env: Env): (r: Result<Value>)
    ensures Truthy(Member(data, "created_at")) ==> r == Ok(Member(data, "created_at"))
    ensures !Truthy(Member(data, "created_at")) && !Truthy(Member(data, "timestamp")) ==> r == Ok(Str(env.now))
    ensures !Truthy(Member(data, "created_at")) && Truthy(Member(data, "timestamp")) ==>
              r == FromTimestamp(Member(data, "timestamp"), env)
  {
    var c := Member(data, "created_at");
    if Truthy(c) then Ok(c)
    else if Truthy(Member(data, "timestamp")) then FromTimestamp(Member(data, "timestamp"), env)
    else Ok(Str(env.now))
  }

  /**
    The creation time as the two legacy adapters write it:
    `data.created_at || data.timestamp ? fromTimestamp : now` parses as
    `(created_at || timestamp) ? ...`, so a `created_at` only ever selects
    the timestamp branch and is never copied.
   */
  function CreatedAtAsWritten(data: Value, env: Env): (r: Result<Value>)
    ensures Truthy(Member(data, "created_at")) || Truthy(Member(data, "timestamp")) ==>
              r == FromTimestamp(Member(data, "timestamp"), env)
    ensures !Truthy(Member(data, "created_at")) && !Truthy(Member(data, "timestamp")) ==> r == Ok(Str(env.now))
  {
    if Truthy(Or(Member(data, "created_at"), Member(data, "timestamp"))) then FromTimestamp(Member(data, "timestamp"), env)
    else Ok(Str(env.now))
  }

  /**
    A payload with a `created_at` and no `timestamp` — the shape the server
    sends — makes the legacy expression throw, while the intended rule keeps
    the given time.
   */
  lemma CreatedAtPrecedenceCounterexample(env: Env)
    ensures var data := Obj([Prop("created_at", Str("2024-01-01T00:00:00Z"))]);
            && CreatedAtAsWritten(data, env) == Thrown(RangeError)
            && CreatedAt(data, env) == Ok(Str("2024-01-01T00:00:00Z"))
  {
    var data := Obj([Prop("created_at", Str("2024-01-01T00:00:00Z"))]);
    assert Member(data, "timestamp") == Undefined;
  }

  /** Whenever the legacy expression succeeds on a payload with a `created_at`, the time comes from the timestamp instead. */
  lemma CreatedAtAsWrittenIgnoresCreatedAt(data: Value, env: Env)
    requires Truthy(Member(data, "created_at")) && CreatedAtAsWritten(data, env).Ok?
    ensures CreatedAtAsWritten(data, env).value == Str(env.isoOfSeconds(Member(data, "timestamp")).value)
    ensures CreatedAt(data, env) == Ok(Member(data, "created_at"))
  {
  }

  // ----- the record -----

  /** The four optional extras, each written only when present. */
  datatype Extras = Extras(icon: Value, iconClass: Value, actionUrl: Value, actions: Value)

  /** `if (v) target[k] = v`. */
  function SetIfPresent(target: Value, k: string, v: Value): (r: Result<Value>)
    ensures !Truthy(v) ==> r == Ok(target)
    ensures Truthy(v) ==> r == SetMember(target, k, v)
  {
    if Truthy(v) then SetMember(target, k, v) else Ok(target)
  }

  /**
    The record's `data` after `icon`, `icon_class` and `action_url` have been
    written into it, in source order. The record holds this very object, so
    writing into it in place is writing into the record's `data`; a
    primitive `data` makes the first write throw.
   */
  function WriteExtras(slot: Value, x: Extras): (r: Result<Value>)
    ensures r.Thrown? ==> r.error == TypeError
    ensures r.Ok? <==> IsObject(slot) || (!Truthy(x.icon) && !Truthy(x.iconClass) && !Truthy(x.actionUrl))
    ensures !Truthy(x.icon) && !Truthy(x.iconClass) && !Truthy(x.actionUrl) ==> r == Ok(slot)
    ensures slot.Obj? ==> r.Ok? && r.value.Obj?
  {
    match SetIfPresent(slot, "icon", x.icon)
    case Thrown(e) => Thrown(e)
    case Ok(d1) =>
      match SetIfPresent(d1, "icon_class", x.iconClass)
      case Thrown(e) => Thrown(e)
      case Ok(d2) => SetIfPresent(d2, "action_url", x.actionUrl)
  }

  /** With an object `data`, each extra that is present ends up in it and the rest of `data` is kept. */
  lemma WriteExtrasFills(slot: Value, x: Extras)
    requires slot.Obj?
    ensures var d := WriteExtras(slot, x).value;
            && Member(d, "icon") == (if Truthy(x.icon) then x.icon else Member(slot, "icon"))
            && Member(d, "icon_class") == (if Truthy(x.iconClass) then x.iconClass else Member(slot, "icon_class"))
            && Member(d, "action_url") == (if Truthy(x.actionUrl) then x.actionUrl else Member(slot, "action_url"))
            && forall k :: k != "icon" && k != "icon_class" && k != "action_url" ==> Member(d, k) == Member(slot, k)
  {
    assert "icon_class"[0] != "action_url"[0] && |"icon"| != |"icon_class"| && |"icon"| != |"action_url"|;
    WriteExtrasAt(slot, x, "icon");
    WriteExtrasAt(slot, x, "icon_class");
    WriteExtrasAt(slot, x, "action_url");
    forall k | k != "icon" && k != "icon_class" && k != "action_url"
      ensures Member(WriteExtras(slot, x).value, k) == Member(slot, k)
    {
      WriteExtrasAt(slot, x, k);
    }
  }

  /** One key of the data slot after the three writes: the last write to that key wins. */
  lemma WriteExtrasAt(slot: Value, x: Extras, q: string)
    requires slot.Obj?
    ensures Member(WriteExtras(slot, x).value, q)
         == if q == "action_url" && Truthy(x.actionUrl) then x.actionUrl
            else if q == "icon_class" && Truthy(x.iconClass) then x.iconClass
            else if q == "icon" && Truthy(x.icon) then x.icon
            else Member(slot, q)
  {
    SetIfPresentObj(slot, "icon", x.icon);
    var d1 := SetIfPresent(slot, "icon", x.icon).value;
    SetIfPresentObj(d1, "icon_class", x.iconClass);
    var d2 := SetIfPresent(d1, "icon_class", x.iconClass).value;
    SetIfPresentObj(d2, "action_url", x.actionUrl);
  }

  lemma SetIfPresentObj(target: Value, k: string, v: Value)
    requires target.Obj?
    ensures SetIfPresent(target, k, v).Ok? && SetIfPresent(target, k, v).value.Obj?
    ensures forall k' :: Member(SetIfPresent(target, k, v).value, k') == if k' == k && Truthy(v) then v else Member(target, k')
  {
  }

  /** The object literal every adapter builds, in its key order, with `actions` appended when present. */
  function Literal(id: Value, title: Value, message: Value, kind: Value, data: Value, created: Value, actions: Value): (o: Record)
    ensures Keys(o) == ["id", "title", "message", "type", "data", "created_at", "_source"]
                       + (if Truthy(actions) then ["actions"] else [])
  {
    [Prop("id", id), Prop("title", title), Prop("message", message), Prop("type", kind),
     Prop("data", data), Prop("created_at", created), Prop("_source", Str("broadcast"))]
    + (if Truthy(actions) then [Prop("actions", actions)] else [])
  }

  // Unfolding helpers, not properties: each reads two fields of the record literal back,
  // so that the normalizers' lemmas can use them without one large proof.

  lemma LiteralNames(id: Value, title: Value, message: Value, kind: Value, data: Value, created: Value, actions: Value)
    ensures Lookup(Literal(id, title, message, kind, data, created, actions), "id") == id
    ensures Lookup(Literal(id, title, message, kind, data, created, actions), "title") == title
  {
    LookupFirst(Literal(id, title, message, kind, data, created, actions), 0, "id");
    LookupFirst(Literal(id, title, message, kind, data, created, actions), 1, "title");
  }

  lemma LiteralBody(id: Value, title: Value, message: Value, kind: Value, data: Value, created: Value, actions: Value)
    ensures Lookup(Literal(id, title, message, kind, data, created, actions), "message") == message
    ensures Lookup(Literal(id, title, message, kind, data, created, actions), "type") == kind
  {
    LookupFirst(Literal(id, title, message, kind, data, created, actions), 2, "message");
    LookupFirst(Literal(id, title, message, kind, data, created, actions), 3, "type");
  }

  lemma LiteralData(id: Value, title: Value, message: Value, kind: Value, data: Value, created: Value, actions: Value)
    ensures Lookup(Literal(id, title, message, kind, data, created, actions), "data") == data
    ensures Lookup(Literal(id, title, message, kind, data, created, actions), "created_at") == created
  {
    LookupFirst(Literal(id, title, message, kind, data, created, actions), 4, "data");
    LookupFirst(Literal(id, title, message, kind, data, created, actions), 5, "created_at");
  }

  lemma LiteralSource(id: Value, title: Value, message: Value, kind: Value, data: Value, created: Value, actions: Value)
    ensures Lookup(Literal(id, title, message, kind, data, created, actions), "_source") == Str("broadcast")
    ensures Lookup(Literal(id, title, message, kind, data, created, actions), "read_at") == Undefined
  {
    LookupFirst(Literal(id, title, message, kind, data, created, actions), 6, "_source");
    LookupAbsent(Literal(id, title, message, kind, data, created, actions), "read_at");
  }

  lemma LiteralActions(id: Value, title: Value, message: Value, kind: Value, data: Value, created: Value, actions: Value)
    ensures Lookup(Literal(id, title, message, kind, data, created, actions), "actions") == if Truthy(actions) then actions else Undefined
  {
    if Truthy(actions) {
      LookupFirst(Literal(id, title, message, kind, data, created, actions), 7, "actions");
    } else {
      LookupAbsent(Literal(id, title, message, kind, data, created, actions), "actions");
    }
  }

  // ----- the normalized notification -----

  /** The data object a payload carries: its own `data` when truthy, else the payload itself. */
  function DataSlot(data: Value): (r: Value)
    ensures Truthy(Member(data, "data")) ==> r == Member(data, "data")
    ensures !Truthy(Member(data, "data")) ==> r == data
  {
    Or(Member(data, "data"), data)
  }

  /** `data.id` when truthy, else a generated id with the given prefix. */
  function IdFor(data: Value, prefix: string, env: Env): (r: Value)
    requires prefix != ""
    ensures Truthy(r)
    ensures Truthy(Member(data, "id")) ==> r == Member(data, "id")
    ensures !Truthy(Member(data, "id")) ==> r == Str(prefix + env.suffix) && StartsWith(r.s, prefix)
  {
    PrefixedStartsWith(prefix, env.suffix);
    Or(Member(data, "id"), Str(prefix + env.suffix))
  }

  /** The first truthy of the payload's and its data's `title`, else the event name with dots turned into spaces. */
  function Title(eventName: string, data: Value): (r: Value)
    ensures Truthy(Member(data, "title")) ==> r == Member(data, "title")
    ensures !Truthy(Member(data, "title")) && Truthy(Member(Member(data, "data"), "title")) ==>
              r == Member(Member(data, "data"), "title")
    ensures !Truthy(Member(data, "title")) && !Truthy(Member(Member(data, "data"), "title")) ==>
              r == Str(ReplaceChar(eventName, '.', ' ')) && '.' !in r.s
    ensures eventName != "" ==> Truthy(r)
  {
    ReplaceCharRemoves(eventName, '.', ' ');
    Or(Member(data, "title"), Or(Member(Member(data, "data"), "title"), Str(ReplaceChar(eventName, '.', ' '))))
  }

  /** The first truthy of `message`, `data.message`, `body`, `data.body`, else the empty string. */
  function Message(data: Value): (r: Value)
    ensures Truthy(r) <==> Truthy(Member(data, "message")) || Truthy(Member(Member(data, "data"), "message"))
                           || Truthy(Member(data, "body")) || Truthy(Member(Member(data, "data"), "body"))
    ensures Truthy(Member(data, "message")) ==> r == Member(data, "message")
    ensures !Truthy(Member(data, "message")) && !Truthy(Member(Member(data, "data"), "message")) && Truthy(Member(data, "body")) ==>
              r == Member(data, "body")
    ensures !Truthy(r) ==> r == Str("")
  {
    var d := Member(data, "data");
    Or(Member(data, "message"), Or(Member(d, "message"), Or(Member(data, "body"), Or(Member(d, "body"), Str("")))))
  }

  /** The extras looked up first on the payload, then on its `data`. */
  function NestedExtras(data: Value): (x: Extras)
    ensures Truthy(Member(data, "icon")) ==> x.icon == Member(data, "icon")
    ensures Truthy(Member(data, "actions")) ==> x.actions == Member(data, "actions")
    ensures Truthy(x.icon) <==> Truthy(Member(data, "icon")) || Truthy(Member(Member(data, "data"), "icon"))
    ensures Truthy(x.actions) <==> Truthy(Member(data, "actions")) || Truthy(Member(Member(data, "data"), "actions"))
  {
    var d := Member(data, "data");
    Extras(
      Or(Member(data, "icon"), Member(d, "icon")),
      Or(Member(data, "icon_class"), Or(Member(data, "iconClass"), Or(Member(d, "icon_class"), Member(d, "iconClass")))),
      Or(Member(data, "action_url"), Or(Member(data, "actionUrl"), Or(Member(d, "action_url"), Member(d, "actionUrl")))),
      Or(Member(data, "actions"), Member(d, "actions")))
  }

  /** `data.type || eventName`. */
  function Kind(eventName: string, data: Value): (r: Value)
    ensures Truthy(Member(data, "type")) ==> r == Member(data, "type")
    ensures !Truthy(Member(data, "type")) ==> r == Str(eventName)
  {
    Or(Member(data, "type"), Str(eventName))
  }

  /**
    `normalizeNotification(eventName, data)`. Reading a property of a null or
    undefined payload throws a TypeError; an invalid timestamp makes the
    date formatting throw a RangeError; a primitive `data` throws when an
    extra is written into it.
   */
  function Normalize(eventName: string, data: Value, env: Env): (r: Result<Record>)
    ensures Nullish(data) ==> r == Thrown(TypeError)
    ensures r.Ok? <==> !Nullish(data) && CreatedAt(data, env).Ok? && WriteExtras(DataSlot(data), NestedExtras(data)).Ok?
    ensures r.Thrown? && !Nullish(data) && CreatedAt(data, env).Ok? ==> r.error == TypeError
    ensures r.Ok? ==> r.value == Literal(IdFor(data, "broadcast-", env), Title(eventName, data), Message(data), Kind(eventName, data),
                                         WriteExtras(DataSlot(data), NestedExtras(data)).value, CreatedAt(data, env).value,
                                         NestedExtras(data).actions)
  {
    if Nullish(data) then Thrown(TypeError)
    else match CreatedAt(data, env)
      case Thrown(e) => Thrown(e)
      case Ok(created) =>
        match WriteExtras(DataSlot(data), NestedExtras(data))
        case Thrown(e) => Thrown(e)
        case Ok(d) =>
          Ok(Literal(IdFor(data, "broadcast-", env), Title(eventName, data), Message(data), Kind(eventName, data),
                     d, created, NestedExtras(data).actions))
  }

  /** The normalized record's identity: its id, tag, type and unread state. */
  lemma NormalizeIdentity(eventName: string, data: Value, env: Env)
    requires Normalize(eventName, data, env).Ok?
    ensures var n := Normalize(eventName, data, env).value;
            && IdOf(n) == IdFor(data, "broadcast-", env)
            && Lookup(n, "_source") == Str("broadcast")
            && Lookup(n, "type") == Kind(eventName, data)
            && IsUnread(n)
  {
    var d, created := WriteExtras(DataSlot(data), NestedExtras(data)).value, CreatedAt(data, env).value;
    var id, t, m, k, a := IdFor(data, "broadcast-", env), Title(eventName, data), Message(data), Kind(eventName, data), NestedExtras(data).actions;
    LiteralNames(id, t, m, k, d, created, a);
    LiteralBody(id, t, m, k, d, created, a);
    LiteralSource(id, t, m, k, d, created, a);
  }

  /** The normalized record's text, time and actions. */
  lemma NormalizeText(eventName: string, data: Value, env: Env)
    requires Normalize(eventName, data, env).Ok?
    ensures var n := Normalize(eventName, data, env).value;
            && Lookup(n, "title") == Title(eventName, data)
            && Lookup(n, "message") == Message(data)
            && Lookup(n, "created_at") == CreatedAt(data, env).value
            && (Truthy(Member(data, "actions")) ==> Lookup(n, "actions") == Member(data, "actions"))
  {
    var d, created := WriteExtras(DataSlot(data), NestedExtras(data)).value, CreatedAt(data, env).value;
    var id, t, m, k, a := IdFor(data, "broadcast-", env), Title(eventName, data), Message(data), Kind(eventName, data), NestedExtras(data).actions;
    LiteralNames(id, t, m, k, d, created, a);
    LiteralBody(id, t, m, k, d, created, a);
    LiteralData(id, t, m, k, d, created, a);
    LiteralActions(id, t, m, k, d, created, a);
  }

  /**
    With an object `data` slot, the record's `data` is that object with the
    present extras written in, looked up on the payload first and on its
    `data` second.
   */
  lemma NormalizeData(eventName: string, data: Value, env: Env)
    requires Normalize(eventName, data, env).Ok? && DataSlot(data).Obj?
    ensures var d := Lookup(Normalize(eventName, data, env).value, "data");
            && d.Obj?
            && (Truthy(Member(data, "icon")) ==> Member(d, "icon") == Member(data, "icon"))
            && (!Truthy(NestedExtras(data).icon) ==> Member(d, "icon") == Member(DataSlot(data), "icon"))
            && forall k :: k != "icon" && k != "icon_class" && k != "action_url" ==> Member(d, k) == Member(DataSlot(data), k)
  {
    var d, created := WriteExtras(DataSlot(data), NestedExtras(data)).value, CreatedAt(data, env).value;
    var id, t, m, k, a := IdFor(data, "broadcast-", env), Title(eventName, data), Message(data), Kind(eventName, data), NestedExtras(data).actions;
    LiteralData(id, t, m, k, d, created, a);
    WriteExtrasFills(DataSlot(data), NestedExtras(data));
  }

  /** An object payload with an object (or absent) `data` and a usable time is always normalized. */
  lemma NormalizeObjectPayload(eventName: string, data: Value, env: Env)
    requires data.Obj? && CreatedAt(data, env).Ok?
    requires !Truthy(Member(data, "data")) || IsObject(Member(data, "data"))
    ensures Normalize(eventName, data, env).Ok?
  {
  }

  /** A payload's own `created_at` is kept verbatim. */
  lemma NormalizeKeepsCreatedAt(eventName: string, data: Value, env: Env)
    requires Normalize(eventName, data, env).Ok? && Truthy(Member(data, "created_at"))
    ensures Lookup(Normalize(eventName, data, env).value, "created_at") == Member(data, "created_at")
  {
    NormalizeText(eventName, data, env);
  }

  // ----- the counter updates -----

  /**
    `handleMarkAsReadUpdate(data)`: removes the record through the store's
    own writer (at most one decrement), then takes the server's count when
    it is a number, zero included. A nullish payload throws on its first
    read, before anything is written.
   */
  function MarkAsReadUpdate(store: Option<Feed>, data: Value): (r: Outcome)
    ensures store.None? ==> r == Done(None)
    ensures store.Some? && Nullish(data) ==> r == Threw(TypeError, store)
    ensures store.Some? && !Nullish(data) ==> r.Done? && r.store.Some?
    ensures r.Done? && store.Some? ==>
              var removed := Remove(store.value, Member(data, "notification_id"));
              && r.store.value.items == removed.items
              && r.store.value.unreadCount == (if Member(data, "unread_count").Num? then Member(data, "unread_count").n else removed.unreadCount)
  {
    match store
    case None => Done(None)
    case Some(f) =>
      if Nullish(data) then Threw(TypeError, store)
      else
        var removed := Remove(f, Member(data, "notification_id"));
        var uc := Member(data, "unread_count");
        Done(Some(if uc.Num? then removed.(unreadCount := uc.n) else removed))
  }

  /**
    `handleMarkAllAsReadUpdate(data)`: the list empties and the counter takes
    `unread_count || 0`. The list is emptied before the payload is read, so a
    nullish payload throws with the list already empty and the counter as it was.
   */
  function MarkAllAsReadUpdate(store: Option<Feed>, data: Value): (r: Outcome)
    ensures store.None? ==> r == Done(None)
    ensures store.Some? && Nullish(data) ==> r == Threw(TypeError, Some(Feed([], store.value.unreadCount)))
    ensures store.Some? && !Nullish(data) ==> r == Done(Some(Feed([], NumOr(Member(data, "unread_count"), 0))))
  {
    match store
    case None => Done(None)
    case Some(f) =>
      var emptied := f.(items := []);
      if Nullish(data) then Threw(TypeError, Some(emptied))
      else Done(Some(emptied.(unreadCount := NumOr(Member(data, "unread_count"), 0))))
  }

  /**
    `handleBroadcastEvent(eventName, data)`: parse a string payload (a
    failure drops the event), dispatch the two counter events, and
    normalize and add anything else — when there is a store to add to.
   */
  function HandleEvent(store: Option<Feed>, eventName: string, raw: Value, env: Env): (r: Outcome)
    ensures ParsePayload(raw, env).None? ==> r == Done(store)
    ensures ParsePayload(raw, env).Some? && eventName == MarkedRead ==>
              r == MarkAsReadUpdate(store, ParsePayload(raw, env).value)
    ensures ParsePayload(raw, env).Some? && eventName == MarkedAllRead ==>
              r == MarkAllAsReadUpdate(store, ParsePayload(raw, env).value)
    ensures ParsePayload(raw, env).Some? && eventName != MarkedRead && eventName != MarkedAllRead ==>
              var n := Normalize(eventName, ParsePayload(raw, env).value, env);
              && (n.Thrown? ==> r == Threw(n.error, store))
              && (n.Ok? ==> r == Done(if store.Some? then Some(Add(store.value, n.value)) else None))
  {
    match ParsePayload(raw, env)
    case None => Done(store)
    case Some(data) =>
      if eventName == MarkedRead then MarkAsReadUpdate(store, data)
      else if eventName == MarkedAllRead then MarkAllAsReadUpdate(store, data)
      else match Normalize(eventName, data, env)
        case Thrown(e) => Threw(e, store)
        case Ok(n) => Done(if store.Some? then Some(Add(store.value, n)) else None)
  }

  // ----- properties -----

  /** A store that is not there is never created: every event, thrown or not, leaves a missing store missing. */
  lemma NoStoreNoChange(eventName: string, raw: Value, env: Env)
    ensures HandleEvent(None, eventName, raw, env).store == None
  {
  }

  /** Every event, including one that throws part-way, keeps the ids in the store unique. */
  lemma HandleEventKeepsUnique(f: Feed, eventName: string, raw: Value, env: Env)
    requires UniqueIds(f.items)
    ensures var r := HandleEvent(Some(f), eventName, raw, env);
            r.store.Some? && UniqueIds(r.store.value.items)
  {
    var p := ParsePayload(raw, env);
    if p.Some? {
      if eventName == MarkedRead {
        RemoveKeepsUnique(f, Member(p.value, "notification_id"));
      } else if eventName != MarkedAllRead && Normalize(eventName, p.value, env).Ok? {
        AddKeepsUnique(f, Normalize(eventName, p.value, env).value);
      }
    }
  }

  /**
    A new-notification event keeps the counter exact: the pushed record is
    unread, so it counts one more exactly when its id was not listed.
   */
  lemma AddEventKeepsCount(f: Feed, eventName: string, data: Value, env: Env)
    requires Consistent(f)
    requires eventName != MarkedRead && eventName != MarkedAllRead && !data.Str?
    requires Normalize(eventName, data, env).Ok?
    ensures var r := HandleEvent(Some(f), eventName, data, env);
            && r.Done? && r.store.Some? && Consistent(r.store.value)
            && r.store.value.unreadCount == f.unreadCount + (if HasId(f.items, IdFor(data, "broadcast-", env)) then 0 else 1)
  {
    var n := Normalize(eventName, data, env).value;
    NormalizeIdentity(eventName, data, env);
    AddKeepsCount(f, n);
    AddKeepsUnique(f, n);
  }

  /** An event whose normalization throws leaves the store exactly as it was, consistent or not. */
  lemma FailedAddLeavesStore(f: Feed, eventName: string, raw: Value, env: Env)
    requires eventName != MarkedRead && eventName != MarkedAllRead
    requires ParsePayload(raw, env).Some? && Normalize(eventName, ParsePayload(raw, env).value, env).Thrown?
    ensures HandleEvent(Some(f), eventName, raw, env).Threw?
    ensures HandleEvent(Some(f), eventName, raw, env).store == Some(f)
  {
  }

  /**
    A mark-read event without a numeric count keeps the counter exact; with
    one, the server's number wins, zero included.
   */
  lemma MarkReadEventCount(f: Feed, data: Value)
    requires Consistent(f) && !Nullish(data)
    ensures var r := MarkAsReadUpdate(Some(f), data).store.value;
            && UniqueIds(r.items)
            && (Member(data, "unread_count").Num? ==> r.unreadCount == Member(data, "unread_count").n)
            && (!Member(data, "unread_count").Num? ==> r.unreadCount == CountUnread(r.items))
  {
    RemoveKeepsCount(f, Member(data, "notification_id"));
    RemoveKeepsUnique(f, Member(data, "notification_id"));
  }

  /**
    Two tabs showing two unread records: whether or not the marked-read
    event carries the new count, the counter ends at one.
   */
  lemma CrossTabMarkRead(a: Record, b: Record)
    requires IdOf(a) == Num(1) && IdOf(b) == Num(2) && IsUnread(a) && IsUnread(b)
    ensures var f := Feed([a, b], 2);
            && MarkAsReadUpdate(Some(f), Obj([Prop("notification_id", Num(1))])) == Done(Some(Feed([b], 1)))
            && MarkAsReadUpdate(Some(f), Obj([Prop("notification_id", Num(1)), Prop("unread_count", Num(1))])) == Done(Some(Feed([b], 1)))
  {
    var f := Feed([a, b], 2);
    assert IndexOf(f.items, Num(1)) == 0;
    assert Without(f.items, 0) == [b];
  }

  /** Marking everything read leaves an empty list; the counter is the server's, or zero. */
  lemma MarkAllReadEmpties(f: Feed, data: Value)
    requires data.Obj? && !Truthy(Member(data, "unread_count"))
    ensures MarkAllAsReadUpdate(Some(f), data) == Done(Some(Feed([], 0)))
    ensures Consistent(Feed([], 0))
  {
  }

  /**
    A `notification.marked-all-read` event whose payload is null — sent as
    null or as the text `null` — throws after the list was emptied: the old
    counter stays, so a store that counted unread records is left
    inconsistent.
   */
  lemma NullMarkAllReadBreaksCount(f: Feed, raw: Value, env: Env)
    requires f.unreadCount != 0
    requires raw == Null || (raw == Str("null") && env.parseJson("null") == Some(Null))
    ensures HandleEvent(Some(f), MarkedAllRead, raw, env) == Threw(TypeError, Some(Feed([], f.unreadCount)))
    ensures !Consistent(Feed([], f.unreadCount))
  {
  }
}
