/**
  The Alpine store `notifications`: the list and counter the bell and the
  dropdown show, the local commands that change them, and the filter that
  prepares a record's action buttons.

  The store talks to an injected manager object whose `markAsRead`,
  `markAllAsRead` and `deleteNotification` resolve to a success flag and whose
  `loadNotifications` resolves to `{success, data, hasMore, unreadCount}`.
  Every awaited call is one atomic step that takes the call's outcome as a
  parameter; each step also reports the manager call it issued, so that
  "no call was made" can be stated.
 */
module Store {
  import opened JsValue
  import opened JsString
  import opened NotificationList
  import ActionBuilder

  /** How an awaited manager call that yields a success flag settled. */
  datatype Reply = Resolved(success: bool) | Rejected

  /** How `manager.loadNotifications(page, append)` settled. */
  datatype LoadReply =
    | Loaded(success: bool, data: seq<Record>, hasMore: Value, unreadCount: Option<int>)
    | LoadRejected

  /** The manager call a step issued. */
  datatype Call =
    | NoCall
    | MarkReadCall(id: Value)
    | MarkAllReadCall
    | LoadCall(page: int, append: bool)
    | DeleteCall(id: Value)

  datatype State = State(
    feed: Feed,
    isLoading: bool,
    currentPage: int,
    hasMore: Value,
    isOpen: bool)

  datatype Step = Step(state: State, call: Call)

  const Initial: State := State(Feed([], 0), false, 1, Bool(false), false)

  /** `typeof id === 'string' && id.startsWith('notif-')`: created in the page, unknown to the server. */
  predicate IsLocalId(id: Value) {
    id.Str? && StartsWith(id.s, "notif-")
  }

  // ----- the two writers shared with the manager -----

  function AddNotification(s: State, n: Record): (r: State)
    ensures r.feed == Add(s.feed, n)
    ensures r == s.(feed := r.feed)
  {
    s.(feed := Add(s.feed, n))
  }

  function RemoveNotification(s: State, id: Value): (r: State)
    ensures r.feed == Remove(s.feed, id)
    ensures r == s.(feed := r.feed)
  {
    s.(feed := Remove(s.feed, id))
  }

  // ----- marking as read -----

  /** The record `items.find(n => n.id === id)` returns, when there is one. */
  function Find(items: seq<Record>, id: Value): (r: Option<Record>)
    ensures r.None? <==> !HasId(items, id)
    ensures r.Some? ==> r.value == items[IndexOf(items, id)]
  {
    var i := IndexOf(items, id);
    if i == -1 then None else Some(items[i])
  }

  /**
    Hides the record locally: splice it out and count one fewer unread
    (never below zero). On a listed unread record, the only kind the store
    hides, this is the shared remove.
   */
  function HideLocally(f: Feed, id: Value): (r: Feed)
    ensures r.items == Remove(f, id).items
    ensures HasId(f.items, id) && IsUnread(f.items[IndexOf(f.items, id)]) ==> r == Remove(f, id)
    ensures r.unreadCount == Max0(f.unreadCount - 1)
  {
    var i := IndexOf(f.items, id);
    var items := if i != -1 then Without(f.items, i) else f.items;
    Feed(items, Max0(f.unreadCount - 1))
  }

  /**
    `markAsRead(id)`: nothing for an absent or already-read record; a local
    record is hidden without the server; otherwise the manager is asked, and
    the record is hidden when it answers truthy or throws, and kept when it
    answers falsy.
   */
  function MarkAsRead(s: State, id: Value, reply: Reply): (r: Step)
    ensures Find(s.feed.items, id).None? || !IsUnread(Find(s.feed.items, id).value) ==> r == Step(s, NoCall)
    ensures Find(s.feed.items, id).Some? && IsUnread(Find(s.feed.items, id).value) ==>
              && (IsLocalId(id) ==> r == Step(RemoveNotification(s, id), NoCall))
              && (!IsLocalId(id) ==> r.call == MarkReadCall(id))
              && (!IsLocalId(id) && reply != Resolved(false) ==> r.state == RemoveNotification(s, id))
              && (!IsLocalId(id) && reply == Resolved(false) ==> r.state == s)
  {
    var found := Find(s.feed.items, id);
    if found.None? || !IsUnread(found.value) then Step(s, NoCall)
    else if IsLocalId(id) then Step(s.(feed := HideLocally(s.feed, id)), NoCall)
    else
      var st := match reply
        case Resolved(ok) =>
          if ok then
            var i := IndexOf(s.feed.items, id);
            if i != -1 then s.(feed := Feed(Without(s.feed.items, i), Max0(s.feed.unreadCount - 1))) else s
          else s
        case Rejected => s.(feed := HideLocally(s.feed, id));
      Step(st, MarkReadCall(id))
  }

  /** The records `items.filter(n => n.read_at)` keeps. */
  predicate IsRead(n: Record) {
    !IsUnread(n)
  }

  /**
    `markAllAsRead()`: with nothing unread, nothing happens and the server is
    not asked; on success only the read records stay and the counter is zero.
    A falsy answer changes nothing, and a rejection propagates to the caller
    with the state untouched.
   */
  function MarkAllAsRead(s: State, reply: Reply): (r: Step)
    ensures CountUnread(s.feed.items) == 0 ==> r == Step(s, NoCall)
    ensures CountUnread(s.feed.items) > 0 ==> r.call == MarkAllReadCall
    ensures CountUnread(s.feed.items) > 0 && reply == Resolved(true) ==>
              && r.state == s.(feed := r.state.feed)
              && r.state.feed.unreadCount == 0
              && r.state.feed.items == Filter(s.feed.items, IsRead)
              && (forall n :: n in r.state.feed.items <==> n in s.feed.items && IsRead(n))
    ensures reply != Resolved(true) ==> r.state == s
  {
    FilterMembers(s.feed.items, IsRead);
    if CountUnread(s.feed.items) == 0 then Step(s, NoCall)
    else if reply == Resolved(true) then
      Step(s.(feed := Feed(Filter(s.feed.items, IsRead), 0)), MarkAllReadCall)
    else Step(s, MarkAllReadCall)
  }

  /** The records `Filter(items, IsRead)` keeps are all read. */
  lemma {:induction false} FilterReadHasNoUnread(items: seq<Record>)
    ensures CountUnread(Filter(items, IsRead)) == 0
  {
    if |items| > 0 {
      FilterReadHasNoUnread(items[1..]);
      var h := if IsRead(items[0]) then [items[0]] else [];
      assert Filter(items, IsRead) == h + Filter(items[1..], IsRead);
      CountUnreadConcat(h, Filter(items[1..], IsRead));
    }
  }

  /**
    A successful mark-all-read keeps the read records in the order the
    dropdown showed them: of two read records, the earlier stays earlier.
   */
  lemma MarkAllAsReadKeepsOrder(s: State, i: int, j: int)
    requires CountUnread(s.feed.items) > 0
    requires 0 <= i < j < |s.feed.items| && IsRead(s.feed.items[i]) && IsRead(s.feed.items[j])
    ensures var r := MarkAllAsRead(s, Resolved(true)).state.feed.items;
            exists k, l :: 0 <= k < l < |r| && r[k] == s.feed.items[i] && r[l] == s.feed.items[j]
  {
    FilterKeepsOrder(s.feed.items, IsRead, i, j);
  }

  // ----- loading -----

  /**
    The synchronous start of `loadNotifications(page, append)`: ignored while
    a load is running or when the manager has no API URL; otherwise the store
    is marked loading and the manager is asked for the page.
   */
  function StartLoad(s: State, page: int, append: bool, apiUrl: bool): (r: Step)
    ensures s.isLoading || !apiUrl ==> r == Step(s, NoCall)
    ensures !s.isLoading && apiUrl ==> r == Step(s.(isLoading := true), LoadCall(page, append))
  {
    if s.isLoading || !apiUrl then Step(s, NoCall)
    else Step(s.(isLoading := true), LoadCall(page, append))
  }

  /**
    The completion of a load: on a successful result the page's records are
    appended after the current ones (no de-duplication) or replace them, the
    page number and `hasMore` are taken over, and the counter is overwritten
    only when the result carries one; in every case loading is over.
   */
  function FinishLoad(s: State, page: int, append: bool, reply: LoadReply): (r: State)
    ensures !r.isLoading && r.isOpen == s.isOpen
    ensures reply.Loaded? && reply.success ==>
              && r.feed.items == (if append then s.feed.items + reply.data else reply.data)
              && r.currentPage == page
              && Truthy(r.hasMore) == Truthy(reply.hasMore)
              && r.feed.unreadCount == (if reply.unreadCount.Some? then reply.unreadCount.value else s.feed.unreadCount)
    ensures !(reply.Loaded? && reply.success) ==> r == s.(isLoading := false)
  {
    match reply
    case Loaded(ok, data, more, count) =>
      if ok then
        var items := if append then s.feed.items + data else data;
        var c := if count.Some? then count.value else s.feed.unreadCount;
        State(Feed(items, c), false, page, Or(more, Bool(false)), s.isOpen)
      else s.(isLoading := false)
    case LoadRejected => s.(isLoading := false)
  }

  /** `loadNotifications(page, append)` awaited to the end, as one step. */
  function LoadNotifications(s: State, page: int, append: bool, apiUrl: bool, reply: LoadReply): (r: Step)
    ensures s.isLoading || !apiUrl ==> r == Step(s, NoCall)
    ensures !s.isLoading && apiUrl ==>
              r == Step(FinishLoad(s.(isLoading := true), page, append, reply), LoadCall(page, append))
    ensures !r.state.isLoading <== !s.isLoading
  {
    var st := StartLoad(s, page, append, apiUrl);
    if st.call == NoCall then st
    else Step(FinishLoad(st.state, page, append, reply), st.call)
  }

  /** `loadMore()`: the next page, appended, only when there is more and nothing is loading. */
  function LoadMore(s: State, apiUrl: bool, reply: LoadReply): (r: Step)
    ensures Truthy(s.hasMore) && !s.isLoading && apiUrl ==> r.call == LoadCall(s.currentPage + 1, true)
    ensures !Truthy(s.hasMore) || s.isLoading || !apiUrl ==> r == Step(s, NoCall)
  {
    if Truthy(s.hasMore) && !s.isLoading then LoadNotifications(s, s.currentPage + 1, true, apiUrl, reply)
    else Step(s, NoCall)
  }

  /**
    `toggle()`: flips the dropdown; opening an empty list starts a first-page
    refresh, which is not awaited and completes later through `FinishLoad`.
   */
  function Toggle(s: State, apiUrl: bool): (r: Step)
    ensures r.state.isOpen == !s.isOpen
    ensures r.state.feed == s.feed
    ensures r.call != NoCall <==> !s.isOpen && |s.feed.items| == 0 && !s.isLoading && apiUrl
    ensures r.call != NoCall ==> r.call == LoadCall(1, false) && r.state.isLoading
  {
    var t := s.(isOpen := !s.isOpen);
    if t.isOpen && |t.feed.items| == 0 then StartLoad(t, 1, false, apiUrl) else Step(t, NoCall)
  }

  /** The item component's `deleteNotification()`: the record is removed when the server confirms. */
  function DeleteNotification(s: State, id: Value, reply: Reply): (r: Step)
    ensures r.call == DeleteCall(id)
    ensures reply == Resolved(true) ==> r.state == RemoveNotification(s, id)
    ensures reply != Resolved(true) ==> r.state == s
  {
    if reply == Resolved(true) then Step(RemoveNotification(s, id), DeleteCall(id))
    else Step(s, DeleteCall(id))
  }

  // ----- the counter invariant across the store's commands -----

  predicate Valid(s: State) {
    Consistent(s.feed)
  }

  lemma MarkAsReadKeepsValid(s: State, id: Value, reply: Reply)
    requires Valid(s)
    ensures Valid(MarkAsRead(s, id, reply).state)
  {
    var found := Find(s.feed.items, id);
    if found.Some? && IsUnread(found.value) {
      RemoveKeepsCount(s.feed, id);
      RemoveKeepsUnique(s.feed, id);
    }
  }

  /** Marking a listed unread record as read, by any path that hides it, counts exactly one fewer. */
  lemma MarkAsReadDecrementsByOne(s: State, id: Value, reply: Reply)
    requires Valid(s)
    requires Find(s.feed.items, id).Some? && IsUnread(Find(s.feed.items, id).value)
    requires IsLocalId(id) || reply != Resolved(false)
    ensures MarkAsRead(s, id, reply).state.feed.unreadCount == s.feed.unreadCount - 1
    ensures !HasId(MarkAsRead(s, id, reply).state.feed.items, id)
  {
    RemoveUnreadDecrementsByOne(s.feed, id);
    RemoveKeepsUnique(s.feed, id);
  }

  lemma MarkAllAsReadKeepsValid(s: State, reply: Reply)
    requires Valid(s)
    ensures Valid(MarkAllAsRead(s, reply).state)
  {
    if CountUnread(s.feed.items) > 0 && reply == Resolved(true) {
      FilterReadHasNoUnread(s.feed.items);
      FilterKeepsUnique(s.feed.items, IsRead);
    }
  }

  /** A refresh whose page is duplicate-free and whose count matches it leaves a valid store. */
  lemma RefreshKeepsValid(s: State, page: int, apiUrl: bool, data: seq<Record>, more: Value)
    requires Valid(s) && UniqueIds(data)
    ensures Valid(LoadNotifications(s, page, false, apiUrl, Loaded(true, data, more, Some(CountUnread(data)))).state)
  {
  }

  /** Appending does not de-duplicate: a page that repeats a listed id leaves that id twice. */
  lemma AppendKeepsDuplicates(s: State, n: Record, apiUrl: bool)
    requires !s.isLoading && apiUrl && s.feed.items == [n]
    ensures !UniqueIds(LoadNotifications(s, 2, true, apiUrl, Loaded(true, [n], Bool(false), None)).state.feed.items)
  {
    var r := LoadNotifications(s, 2, true, apiUrl, Loaded(true, [n], Bool(false), None)).state.feed.items;
    assert r == [n, n];
    assert IdOf(r[0]) == IdOf(r[1]);
  }

  // ----- loading and the dropdown -----

  /**
    A load-more that settles successfully keeps every listed record, in
    order, in front of the new page and moves to the next page; one that
    fails keeps the list and the page. Either way loading is over.
   */
  lemma LoadMoreAppends(s: State, apiUrl: bool, reply: LoadReply)
    requires Truthy(s.hasMore) && !s.isLoading && apiUrl
    ensures var r := LoadMore(s, apiUrl, reply).state;
            && !r.isLoading
            && (reply.Loaded? && reply.success ==>
                  && r.feed.items[..|s.feed.items|] == s.feed.items
                  && r.feed.items[|s.feed.items|..] == reply.data
                  && r.currentPage == s.currentPage + 1)
            && (!(reply.Loaded? && reply.success) ==> r.feed == s.feed && r.currentPage == s.currentPage)
  {
    var r := LoadMore(s, apiUrl, reply).state;
    if reply.Loaded? && reply.success {
      assert r.feed.items == s.feed.items + reply.data;
    }
  }

  /** While a load is running, neither load-more nor the dropdown starts another one. */
  lemma NoLoadWhileLoading(s: State, apiUrl: bool, reply: LoadReply)
    requires s.isLoading
    ensures LoadMore(s, apiUrl, reply) == Step(s, NoCall)
    ensures Toggle(s, apiUrl).call == NoCall
  {
  }

  /**
    Toggling twice shows the dropdown as it was over the same list; at most
    one of the two toggles starts a load, and when neither does the store is
    back exactly where it was.
   */
  lemma ToggleTwice(s: State, apiUrl: bool)
    ensures var t1 := Toggle(s, apiUrl);
            var t2 := Toggle(t1.state, apiUrl);
            && t2.state.isOpen == s.isOpen
            && t2.state.feed == s.feed
            && (t1.call == NoCall || t2.call == NoCall)
            && (t1.call == NoCall && t2.call == NoCall ==> t2.state == s)
  {
  }

  // ----- action buttons -----

  /** `action.toObject()` for a builder instance; every other value is kept as it is. */
  function ConvertAction(a: Value): (r: Value)
    ensures a.ActionInst? ==> r == ActionBuilder.ToObject(ActionBuilder.Action(a.fields))
    ensures !a.ActionInst? ==> r == a
    ensures !r.ActionInst?
  {
    if a.ActionInst? then ActionBuilder.ToObject(ActionBuilder.Action(a.fields)) else a
  }

  /** `action && (action.name || action.label)`: the buttons worth showing. */
  predicate Showable(a: Value) {
    Truthy(a) && (Truthy(Member(a, "name")) || Truthy(Member(a, "label")))
  }

  function ConvertAll(actions: seq<Value>): (r: seq<Value>)
    ensures |r| == |actions| && forall i :: 0 <= i < |r| ==> r[i] == ConvertAction(actions[i])
  {
    seq(|actions|, i requires 0 <= i < |actions| => ConvertAction(actions[i]))
  }

  /**
    `getNotificationData(notification).actions`: `notification.actions || []`;
    an array has its builders converted and its unnamed, unlabelled or falsy
    entries dropped; any other truthy value is passed on unchanged.
   */
  function DisplayActions(actions: Value): (r: Value)
    ensures !Truthy(actions) ==> r == Arr([])
    ensures Truthy(actions) && !actions.Arr? ==> r == actions
    ensures actions.Arr? ==> r == Arr(Filter(ConvertAll(actions.elems), Showable))
    ensures actions.Arr? ==> r.Arr? && forall a :: a in r.elems <==> a in ConvertAll(actions.elems) && Showable(a)
  {
    var v := Or(actions, Arr([]));
    if v.Arr? then FilterMembers(ConvertAll(v.elems), Showable); Arr(Filter(ConvertAll(v.elems), Showable)) else v
  }

  /** The item component's `actions` getter: as above, but a non-array gives no buttons. */
  function ItemActions(actions: Value): (r: seq<Value>)
    ensures !actions.Arr? ==> r == []
    ensures actions.Arr? ==> r == Filter(ConvertAll(actions.elems), Showable)
    ensures actions.Arr? ==> forall a :: a in r <==> a in ConvertAll(actions.elems) && Showable(a)
    ensures forall i :: 0 <= i < |r| ==> Showable(r[i]) && !r[i].ActionInst?
  {
    var v := Or(actions, Arr([]));
    if v.Arr? then FilterMembers(ConvertAll(v.elems), Showable); Filter(ConvertAll(v.elems), Showable) else []
  }

  /** Both views agree on arrays. */
  lemma ViewsAgreeOnArrays(actions: Value)
    requires actions.Arr?
    ensures DisplayActions(actions) == Arr(ItemActions(actions))
  {
  }

  /** Plain, named action objects pass through both views untouched and in order. */
  lemma NamedActionsKept(actions: seq<Value>)
    requires forall i :: 0 <= i < |actions| ==> actions[i].Obj? && Showable(actions[i])
    ensures ItemActions(Arr(actions)) == actions
  {
    assert ConvertAll(actions) == actions;
    FilterAll(actions, Showable);
  }

  /**
    The buttons come out in the order the actions were given: of two
    showable entries, the earlier one is drawn first.
   */
  lemma ShownActionsKeepOrder(actions: seq<Value>, i: int, j: int)
    requires 0 <= i < j < |actions| && Showable(ConvertAction(actions[i])) && Showable(ConvertAction(actions[j]))
    ensures var r := ItemActions(Arr(actions));
            exists k, l :: 0 <= k < l < |r| && r[k] == ConvertAction(actions[i]) && r[l] == ConvertAction(actions[j])
  {
    var c := ConvertAll(actions);
    assert c[i] == ConvertAction(actions[i]) && c[j] == ConvertAction(actions[j]);
    FilterKeepsOrder(c, Showable, i, j);
    var r := ItemActions(Arr(actions));
    assert r == Filter(c, Showable);
    var k, l :| 0 <= k < l < |r| && r[k] == c[i] && r[l] == c[j];
  }

  /** Showing the buttons of two action lists one after the other is showing those of the joined list. */
  lemma ItemActionsConcat(a: seq<Value>, b: seq<Value>)
    ensures ItemActions(Arr(a + b)) == ItemActions(Arr(a)) + ItemActions(Arr(b))
  {
    assert ConvertAll(a + b) == ConvertAll(a) + ConvertAll(b);
    FilterConcat(ConvertAll(a), ConvertAll(b), Showable);
  }

  /** A builder made with a non-empty name is shown, as its plain-object form. */
  lemma BuilderActionShown(name: string)
    requires name != ""
    ensures ItemActions(Arr([ActionBuilder.AsValue(ActionBuilder.Make(Str(name)))]))
         == [ActionBuilder.ToObject(ActionBuilder.Make(Str(name)))]
  {
    var b := ActionBuilder.Make(Str(name));
    ActionBuilder.MakeIsPlain(name);
    var o := ActionBuilder.ToObject(b);
    assert Member(o, "name") == Str(name);
    assert ConvertAll([ActionBuilder.AsValue(b)]) == [o];
    FilterAll([o], Showable);
  }
}
