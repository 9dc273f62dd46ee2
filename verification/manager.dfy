/**
  The notification manager: the same list and counter as the store, fed by
  REST loads (a refresh that keeps the records the server did not send and an
  append for further pages), by polling for records newer than the last
  refresh, and by the server's answers to mark-as-read requests; plus the
  event-listener registry.

  Each `fetch` is one atomic step whose outcome is a parameter; the clock
  (`new Date()`) is the parameter `now`, in milliseconds, and date parsing is
  the parameter `parseDate`, which yields no time for an invalid date.
 */
module Manager {
  import opened JsValue
  import opened NotificationList

  /** A registered callback, identified by reference. */
  type Callback = nat

  datatype State = State(
    feed: Feed,
    lastCheckTime: Option<int>,
    isLoading: bool,
    listeners: map<string, seq<Callback>>)

  const Initial: State := State(Feed([], 0), None, false, map[])

  /** How a `fetch` for a page of notifications ended. */
  datatype PageReply =
      /** An ok response whose JSON has a truthy `success`: `data` (missing read as `[]`) and `meta`. */
    | Page(data: seq<Record>, meta: Value)
      /** A network error, a non-ok status, unreadable JSON or a falsy `success`. */
    | PageFailed

  /** How the `fetch` of a mark-as-read or mark-all-read request ended. */
  datatype Http = HttpOk | HttpNotOk | HttpThrew

  /** How the polling `fetch` ended. */
  datatype PollReply =
    | Poll(success: bool, data: seq<Record>)
    | PollFailed

  predicate IsApi(n: Record) {
    Lookup(n, "_source") == Str("api")
  }

  predicate NotApi(n: Record) {
    !IsApi(n)
  }

  /** `n.data?.actions && !n.actions`: the record's actions sit only inside its data. */
  predicate ActionsOnlyInData(n: Record) {
    Truthy(Member(Lookup(n, "data"), "actions")) && !Truthy(Lookup(n, "actions"))
  }

  /** Copies `data.actions` to the top level when only the data has actions. */
  function LiftActions(n: Record): (r: Record)
    ensures ActionsOnlyInData(n) ==> Lookup(r, "actions") == Member(Lookup(n, "data"), "actions")
    ensures !ActionsOnlyInData(n) ==> r == n
    ensures Lookup(r, "id") == Lookup(n, "id") && Lookup(r, "read_at") == Lookup(n, "read_at")
    ensures Lookup(r, "_source") == Lookup(n, "_source")
  {
    if ActionsOnlyInData(n) then
      var a := Member(Lookup(n, "data"), "actions");
      LookupAssign(n, "actions", a, "actions");
      LookupAssign(n, "actions", a, "id");
      LookupAssign(n, "actions", a, "read_at");
      LookupAssign(n, "actions", a, "_source");
      Assign(n, "actions", a)
    else n
  }

  /** Lifting writes `actions` and no other field. */
  lemma LiftActionsKeeps(n: Record, k: string)
    requires k != "actions"
    ensures Lookup(LiftActions(n), k) == Lookup(n, k)
  {
    if ActionsOnlyInData(n) {
      LookupAssign(n, "actions", Member(Lookup(n, "data"), "actions"), k);
    }
  }

  /** The loaded record as the manager keeps it: actions lifted, tagged as coming from the server. */
  function Normalize(n: Record): (r: Record)
    ensures IsApi(r)
    ensures ActionsOnlyInData(n) ==> Lookup(r, "actions") == Member(Lookup(n, "data"), "actions")
    ensures !ActionsOnlyInData(n) ==> Lookup(r, "actions") == Lookup(n, "actions")
    ensures IdOf(r) == IdOf(n) && IsUnread(r) == IsUnread(n)
  {
    var l := LiftActions(n);
    LookupAssign(l, "_source", Str("api"), "_source");
    LookupAssign(l, "_source", Str("api"), "actions");
    LookupAssign(l, "_source", Str("api"), "id");
    LookupAssign(l, "_source", Str("api"), "read_at");
    Assign(l, "_source", Str("api"))
  }

  function NormalizeAll(ns: seq<Record>): (r: seq<Record>)
    ensures |r| == |ns| && forall i :: 0 <= i < |r| ==> r[i] == Normalize(ns[i])
  {
    seq(|ns|, i requires 0 <= i < |ns| => Normalize(ns[i]))
  }

  /** The records a refresh keeps: those the server did not supply, in order. */
  function Preserved(items: seq<Record>): (r: seq<Record>)
    ensures forall n :: n in r <==> n in items && NotApi(n)
  {
    FilterMembers(items, NotApi);
    Filter(items, NotApi)
  }

  /** The incoming records a refresh takes: those whose id no kept record has. */
  function Incoming(preserved: seq<Record>, data: seq<Record>): (r: seq<Record>)
    ensures forall n :: n in r <==> n in data && !HasId(preserved, IdOf(n))
  {
    FilterMembers(data, n => !HasId(preserved, IdOf(n)));
    Filter(data, n => !HasId(preserved, IdOf(n)))
  }

  /**
    `handleLoadSuccess(result, append)`: an append adds the normalized page
    after the current records; a refresh keeps the non-server records first
    and follows them with the normalized page minus the ids already kept,
    and stamps the check time. Either way the counter becomes `meta.count`,
    or 0 when that is missing or falsy.
   */
  function HandleLoadSuccess(m: State, data: seq<Record>, meta: Value, append: bool, now: int): (r: State)
    ensures r.feed.unreadCount == NumOr(Member(meta, "count"), 0)
    ensures append ==> r.feed.items == m.feed.items + NormalizeAll(data) && r.lastCheckTime == m.lastCheckTime
    ensures !append ==>
              var kept := Preserved(m.feed.items);
              && r.feed.items == kept + NormalizeAll(Incoming(kept, data))
              && r.lastCheckTime == Some(now)
    ensures r.isLoading == m.isLoading && r.listeners == m.listeners
  {
    var count := NumOr(Member(meta, "count"), 0);
    if append then
      m.(feed := Feed(m.feed.items + NormalizeAll(data), count))
    else
      var kept := Preserved(m.feed.items);
      m.(feed := Feed(kept + NormalizeAll(Incoming(kept, data)), count), lastCheckTime := Some(now))
  }

  /** The synchronous start of `loadNotifications(page, append)`: ignored while loading or without an API URL. */
  function StartLoad(m: State, apiUrl: bool): (r: Option<State>)
    ensures m.isLoading || !apiUrl <==> r.None?
    ensures r.Some? ==> r.value == m.(isLoading := true)
  {
    if m.isLoading || !apiUrl then None else Some(m.(isLoading := true))
  }

  /** The end of a load: a successful page is merged; in every case loading is over. */
  function FinishLoad(m: State, append: bool, reply: PageReply, now: int): (r: State)
    ensures !r.isLoading
    ensures reply.Page? ==> r == HandleLoadSuccess(m, reply.data, reply.meta, append, now).(isLoading := false)
    ensures reply.PageFailed? ==> r == m.(isLoading := false)
  {
    match reply
    case Page(data, meta) => HandleLoadSuccess(m, data, meta, append, now).(isLoading := false)
    case PageFailed => m.(isLoading := false)
  }

  /** `loadNotifications(page, append)` awaited to the end. */
  function LoadNotifications(m: State, append: bool, apiUrl: bool, reply: PageReply, now: int): (r: State)
    ensures m.isLoading || !apiUrl ==> r == m
    ensures !m.isLoading && apiUrl ==> r == FinishLoad(m, append, reply, now)
  {
    match StartLoad(m, apiUrl)
    case None => m
    case Some(started) => FinishLoad(started, append, reply, now)
  }

  /**
    `markAsRead(id)`: on an ok response the first page is reloaded (the record
    is not removed locally); on an error status or a network failure the
    record is removed only when it did not come from the server.
   */
  function MarkAsRead(m: State, id: Value, outcome: Http, apiUrl: bool, reload: PageReply, now: int): (r: State)
    ensures outcome == HttpOk ==> r == LoadNotifications(m, false, apiUrl, reload, now)
    ensures outcome != HttpOk && HasId(m.feed.items, id) && NotApi(m.feed.items[IndexOf(m.feed.items, id)]) ==>
              r == m.(feed := Remove(m.feed, id))
    ensures outcome != HttpOk && (!HasId(m.feed.items, id) || IsApi(m.feed.items[IndexOf(m.feed.items, id)])) ==>
              r == m
  {
    if outcome == HttpOk then LoadNotifications(m, false, apiUrl, reload, now)
    else
      var i := IndexOf(m.feed.items, id);
      if i != -1 && NotApi(m.feed.items[i]) then m.(feed := Remove(m.feed, id)) else m
  }

  /** `markAllAsRead()`: an ok response empties the list and zeroes the counter; anything else changes nothing. */
  function MarkAllAsRead(m: State, outcome: Http): (r: State)
    ensures outcome == HttpOk ==> r.feed == Feed([], 0) && r == m.(feed := r.feed)
    ensures outcome != HttpOk ==> r == m
  {
    if outcome == HttpOk then ClearAllNotifications(m) else m
  }

  /** `clearAllNotifications()`. */
  function ClearAllNotifications(m: State): (r: State)
    ensures Consistent(r.feed) && |r.feed.items| == 0 && r.feed.unreadCount == 0
    ensures r == m.(feed := r.feed)
  {
    m.(feed := Feed([], 0))
  }

  // ----- polling -----

  /**
    Whether a polled record is new: its time (`created_at`, else `created`)
    is not at or before the last check — an unparsable time compares false
    and so lets it through — and its id is not listed yet.
   */
  predicate IsNovel(n: Record, last: int, existing: seq<Record>, parseDate: Value -> Option<int>) {
    var t := parseDate(Or(Lookup(n, "created_at"), Lookup(n, "created")));
    (t.None? || t.value > last) && !HasId(existing, IdOf(n))
  }

  /** The polled records that pass the novelty test, in the order received. */
  function Novel(data: seq<Record>, last: int, existing: seq<Record>, parseDate: Value -> Option<int>): (r: seq<Record>)
    ensures r == Filter(data, n => IsNovel(n, last, existing, parseDate))
    ensures forall p :: p in r <==> p in data && IsNovel(p, last, existing, parseDate)
  {
    FilterMembers(data, n => IsNovel(n, last, existing, parseDate));
    Filter(data, n => IsNovel(n, last, existing, parseDate))
  }

  /** What is done to a polled record before it is added: actions lifted, flagged new. */
  function PreparePolled(n: Record): (r: Record)
    ensures IdOf(r) == IdOf(n) && IsUnread(r) == IsUnread(n)
    ensures Lookup(r, "_source") == Lookup(n, "_source")
  {
    var l := LiftActions(n);
    LookupAssign(l, "_isNew", Bool(true), "id");
    LookupAssign(l, "_isNew", Bool(true), "read_at");
    LookupAssign(l, "_isNew", Bool(true), "_source");
    Assign(l, "_isNew", Bool(true))
  }

  /** `forEach(addNotification)`: each record is added in turn, so later ones end up in front. */
  function AddAll(f: Feed, ns: seq<Record>): Feed
    decreases |ns|
  {
    if |ns| == 0 then f else AddAll(Add(f, ns[0]), ns[1..])
  }

  /**
    `checkForNewNotifications()`: does nothing while loading or before the
    first refresh; otherwise every polled record that is newer than the last
    refresh and not yet listed is prepared and added.
   */
  function CheckForNewNotifications(m: State, reply: PollReply, parseDate: Value -> Option<int>): (r: State)
    ensures m.isLoading || m.lastCheckTime.None? ==> r == m
    ensures reply.PollFailed? || (reply.Poll? && (!reply.success || |reply.data| == 0)) ==> r == m
    ensures r == m.(feed := r.feed)
    ensures !m.isLoading && m.lastCheckTime.Some? && reply.Poll? && reply.success ==>
              r.feed == AddAll(m.feed, PrepareAll(Novel(reply.data, m.lastCheckTime.value, m.feed.items, parseDate)))
  {
    if m.isLoading || m.lastCheckTime.None? then m
    else match reply
      case PollFailed => m
      case Poll(ok, data) =>
        if ok && |data| > 0 then
          m.(feed := AddAll(m.feed, PrepareAll(Novel(data, m.lastCheckTime.value, m.feed.items, parseDate))))
        else m
  }

  function PrepareAll(ns: seq<Record>): (r: seq<Record>)
    ensures |r| == |ns| && forall i :: 0 <= i < |r| ==> r[i] == PreparePolled(ns[i])
  {
    seq(|ns|, i requires 0 <= i < |ns| => PreparePolled(ns[i]))
  }

  // ----- listeners -----

  /** The callbacks `emit(event)` invokes, in order. */
  function Listeners(m: State, event: string): seq<Callback> {
    if event in m.listeners then m.listeners[event] else []
  }

  /** `on(event, callback)`: appends a registration, duplicates included. */
  function On(m: State, event: string, cb: Callback): (r: State)
    ensures Listeners(r, event) == Listeners(m, event) + [cb]
    ensures forall e :: e != event ==> Listeners(r, e) == Listeners(m, e)
    ensures r.feed == m.feed
  {
    m.(listeners := m.listeners[event := Listeners(m, event) + [cb]])
  }

  /** `off(event, callback)`: drops every registration of the callback for that event. */
  function Off(m: State, event: string, cb: Callback): (r: State)
    ensures cb !in Listeners(r, event)
    ensures forall c :: c != cb ==> (c in Listeners(r, event) <==> c in Listeners(m, event))
    ensures forall e :: e != event ==> Listeners(r, e) == Listeners(m, e)
    ensures r.feed == m.feed
  {
    if event !in m.listeners then m
    else
      FilterMembers(m.listeners[event], c => c != cb);
      m.(listeners := m.listeners[event := Filter(m.listeners[event], c => c != cb)])
  }

  // ----- properties -----

  /**
    A mark-read that fails keeps a consistent list consistent: at most a
    local record goes, through the shared writer. Repeating it changes
    nothing more.
   */
  lemma FailedMarkAsReadKeepsConsistent(m: State, id: Value, outcome: Http, apiUrl: bool, reload: PageReply, now: int)
    requires outcome != HttpOk && Consistent(m.feed)
    ensures var r := MarkAsRead(m, id, outcome, apiUrl, reload, now);
            && Consistent(r.feed)
            && MarkAsRead(r, id, outcome, apiUrl, reload, now) == r
  {
    RemoveKeepsCount(m.feed, id);
    RemoveKeepsUnique(m.feed, id);
    RemoveIdempotent(m.feed, id);
  }

  /** A server record survives a failed mark-read, and a listed local one is gone after it. */
  lemma FailedMarkAsReadRemovesOnlyLocal(m: State, id: Value, outcome: Http, apiUrl: bool, reload: PageReply, now: int)
    requires outcome != HttpOk && UniqueIds(m.feed.items) && HasId(m.feed.items, id)
    ensures var r := MarkAsRead(m, id, outcome, apiUrl, reload, now);
            && (IsApi(m.feed.items[IndexOf(m.feed.items, id)]) ==> HasId(r.feed.items, id))
            && (NotApi(m.feed.items[IndexOf(m.feed.items, id)]) ==> !HasId(r.feed.items, id))
  {
    RemoveKeepsUnique(m.feed, id);
    RemoveIdempotent(m.feed, id);
  }

  /** Mark-all-read leaves a consistent list whatever the outcome, and doing it twice is doing it once. */
  lemma MarkAllAsReadConsistent(m: State, outcome: Http)
    requires Consistent(m.feed) || outcome == HttpOk
    ensures Consistent(MarkAllAsRead(m, outcome).feed)
    ensures MarkAllAsRead(MarkAllAsRead(m, outcome), outcome) == MarkAllAsRead(m, outcome)
  {
  }

  /** A refresh keeps every non-server record, in its original order, at the front. */
  lemma RefreshKeepsLocal(m: State, data: seq<Record>, meta: Value, now: int)
    ensures var r := HandleLoadSuccess(m, data, meta, false, now);
            && |Preserved(m.feed.items)| <= |r.feed.items|
            && r.feed.items[..|Preserved(m.feed.items)|] == Preserved(m.feed.items)
            && forall n :: n in m.feed.items && NotApi(n) ==> n in r.feed.items
  {
    var kept := Preserved(m.feed.items);
    var r := HandleLoadSuccess(m, data, meta, false, now);
    assert r.feed.items[..|kept|] == kept;
    forall n | n in m.feed.items && NotApi(n)
      ensures n in r.feed.items
    {
      assert n in kept;
    }
  }

  /** A refresh drops the old server records: everything after the kept prefix is from the new page. */
  lemma RefreshReplacesApi(m: State, data: seq<Record>, meta: Value, now: int)
    ensures var r := HandleLoadSuccess(m, data, meta, false, now);
            var kept := Preserved(m.feed.items);
            && (forall i :: |kept| <= i < |r.feed.items| ==> IsApi(r.feed.items[i]))
            && (forall i :: |kept| <= i < |r.feed.items| ==> !HasId(kept, IdOf(r.feed.items[i])))
  {
    var kept := Preserved(m.feed.items);
    TailFromPage(kept, Incoming(kept, data));
  }

  lemma TailFromPage(kept: seq<Record>, inc: seq<Record>)
    requires forall n :: n in inc ==> !HasId(kept, IdOf(n))
    ensures var items := kept + NormalizeAll(inc);
            forall i :: |kept| <= i < |items| ==> IsApi(items[i]) && !HasId(kept, IdOf(items[i]))
  {
    var items := kept + NormalizeAll(inc);
    forall i | |kept| <= i < |items|
      ensures IsApi(items[i]) && !HasId(kept, IdOf(items[i]))
    {
      var j := i - |kept|;
      assert items[i] == NormalizeAll(inc)[j];
      assert inc[j] in inc;
    }
  }

  /** After a refresh every record is either one the refresh kept or a normalized record of the new page. */
  lemma RefreshOnlyKeptOrNew(m: State, data: seq<Record>, meta: Value, now: int)
    ensures var kept := Preserved(m.feed.items);
            forall n :: n in HandleLoadSuccess(m, data, meta, false, now).feed.items ==>
              n in kept || n in NormalizeAll(Incoming(kept, data))
  {
    var kept := Preserved(m.feed.items);
    var items := HandleLoadSuccess(m, data, meta, false, now).feed.items;
    assert items == kept + NormalizeAll(Incoming(kept, data));
  }

  /** Unique ids among the kept records and on the page give unique ids after a refresh. */
  lemma RefreshKeepsUnique(m: State, data: seq<Record>, meta: Value, now: int)
    requires UniqueIds(m.feed.items) && UniqueIds(data)
    ensures UniqueIds(HandleLoadSuccess(m, data, meta, false, now).feed.items)
  {
    var kept := Preserved(m.feed.items);
    var inc := Incoming(kept, data);
    FilterKeepsUnique(m.feed.items, NotApi);
    FilterKeepsUnique(data, n => !HasId(kept, IdOf(n)));
    var norm := NormalizeAll(inc);
    forall j | 0 <= j < |norm|
      ensures IdOf(norm[j]) == IdOf(inc[j]) && !HasId(kept, IdOf(norm[j]))
    {
      assert inc[j] in inc;
    }
    ConcatKeepsUnique(kept, norm);
  }

  lemma {:induction false} AddAllKeepsConsistent(f: Feed, ns: seq<Record>)
    requires Consistent(f)
    ensures Consistent(AddAll(f, ns))
    decreases |ns|
  {
    if |ns| > 0 {
      AddKeepsCount(f, ns[0]);
      AddKeepsUnique(f, ns[0]);
      AddAllKeepsConsistent(Add(f, ns[0]), ns[1..]);
    }
  }

  /** Polling only ever adds records: everything listed before stays listed. */
  lemma {:induction false} AddAllKeepsOld(f: Feed, ns: seq<Record>)
    ensures forall n :: n in f.items ==> n in AddAll(f, ns).items
    decreases |ns|
  {
    if |ns| > 0 {
      AddAllKeepsOld(Add(f, ns[0]), ns[1..]);
    }
  }

  lemma AddOnlyGiven(f: Feed, x: Record, n: Record)
    requires n in Add(f, x).items && n !in f.items
    ensures n == MarkNew(x)
  {
    if !HasId(f.items, IdOf(x)) {
      assert Add(f, x).items == [MarkNew(x)] + f.items;
    }
  }

  /** Every record polling adds is a flagged copy of one of the given records; `i` says which. */
  lemma {:induction false} AddAllOnlyGiven(f: Feed, ns: seq<Record>, n: Record) returns (i: nat)
    requires n in AddAll(f, ns).items && n !in f.items
    ensures i < |ns| && n == MarkNew(ns[i])
    decreases |ns|
  {
    if |ns| == 0 {
      assert false;
    } else {
      var g := Add(f, ns[0]);
      AddAllStep(f, ns);
      if n in g.items {
        AddOnlyGiven(f, ns[0], n);
        i := 0;
      } else {
        var j := AddAllOnlyGiven(g, ns[1..], n);
        i := j + 1;
        assert ns[i] == ns[1..][j];
      }
    }
  }

  lemma AddAllStep(f: Feed, ns: seq<Record>)
    requires |ns| > 0
    ensures AddAll(f, ns) == AddAll(Add(f, ns[0]), ns[1..])
  {
  }

  /** Polling keeps the counter exact and the ids unique. */
  lemma CheckKeepsConsistent(m: State, reply: PollReply, parseDate: Value -> Option<int>)
    requires Consistent(m.feed)
    ensures Consistent(CheckForNewNotifications(m, reply, parseDate).feed)
  {
    if !m.isLoading && m.lastCheckTime.Some? && reply.Poll? && reply.success {
      AddAllKeepsConsistent(m.feed, PrepareAll(Novel(reply.data, m.lastCheckTime.value, m.feed.items, parseDate)));
    }
  }

  /**
    Polling never adds a record whose parsed time is at or before the last
    refresh, nor one whose id was already listed.
   */
  lemma CheckAddsOnlyNovel(m: State, reply: PollReply, parseDate: Value -> Option<int>, n: Record)
    requires !m.isLoading && m.lastCheckTime.Some? && reply.Poll? && reply.success
    requires n in CheckForNewNotifications(m, reply, parseDate).feed.items && n !in m.feed.items
    ensures exists p :: p in reply.data && IsNovel(p, m.lastCheckTime.value, m.feed.items, parseDate)
                        && n == MarkNew(PreparePolled(p))
  {
    var novel := Novel(reply.data, m.lastCheckTime.value, m.feed.items, parseDate);
    var prepared := PrepareAll(novel);
    var i := AddAllOnlyGiven(m.feed, prepared, n);
    var p := novel[i];
    assert p in novel;
    assert p in reply.data && IsNovel(p, m.lastCheckTime.value, m.feed.items, parseDate);
    assert n == MarkNew(PreparePolled(p));
  }

  /** A record added by polling carries no server tag, so a later refresh keeps it. */
  lemma PolledRecordSurvivesRefresh(m: State, p: Record, data: seq<Record>, meta: Value, now: int)
    requires Lookup(p, "_source") == Undefined
    requires MarkNew(PreparePolled(p)) in m.feed.items
    ensures MarkNew(PreparePolled(p)) in HandleLoadSuccess(m, data, meta, false, now).feed.items
  {
    PolledNotApi(p);
    var kept := Preserved(m.feed.items);
    KeptSurvives(m.feed.items, MarkNew(PreparePolled(p)), NormalizeAll(Incoming(kept, data)));
  }

  lemma PolledNotApi(p: Record)
    requires Lookup(p, "_source") == Undefined
    ensures NotApi(MarkNew(PreparePolled(p)))
  {
    var pp := PreparePolled(p);
    assert |"_source"| != |"_isNew"|;
    LookupAssign(pp, "_isNew", Bool(true), "_source");
  }

  lemma KeptSurvives(items: seq<Record>, q: Record, tail: seq<Record>)
    requires q in items && NotApi(q)
    ensures q in Preserved(items) + tail
  {
    assert q in Preserved(items);
  }

  /** After `off`, `emit` calls the other callbacks in their original order. */
  lemma OffKeepsOrder(m: State, event: string, cb: Callback)
    ensures Listeners(Off(m, event, cb), event) == Filter(Listeners(m, event), c => c != cb)
  {
    if event !in m.listeners {
      FilterAll(Listeners(m, event), c => c != cb);
    }
  }

  /** Registering a new callback and removing it again restores the emit list. */
  lemma OffUndoesOn(m: State, event: string, cb: Callback)
    requires cb !in Listeners(m, event)
    ensures Listeners(Off(On(m, event, cb), event, cb), event) == Listeners(m, event)
  {
    var ls := Listeners(m, event);
    OffKeepsOrder(On(m, event, cb), event, cb);
    FilterAll(ls, c => c != cb);
    FilterAppend(ls, cb, c => c != cb);
  }

  lemma {:induction false} FilterAppend<T(!new)>(s: seq<T>, x: T, p: T -> bool)
    ensures Filter(s + [x], p) == Filter(s, p) + (if p(x) then [x] else [])
  {
    if |s| == 0 {
      assert s + [x] == [x];
      assert Filter([x], p) == (if p(x) then [x] else []) + Filter([x][1..], p);
    } else {
      assert (s + [x])[1..] == s[1..] + [x];
      assert (s + [x])[0] == s[0];
      FilterAppend(s[1..], x, p);
    }
  }
}
