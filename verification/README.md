# Notification reconciliation core, modelled in Dafny

This project models the browser-side part of the NotificationUI plugin. That
part keeps a list of notification records and an unread counter. Three kinds
of writers change that state:

- REST loads and polls, which refresh the list, append pages and add novel records;
- real-time push events, arriving through one of three broadcasting adapters;
- the user's own commands: mark as read, mark all as read, remove, delete.

The model also covers the pure helpers around that state: the renderer's
title, message, icon, time-ago and template rules, and the two fluent record
builders, `CakeNotification` and `CakeNotificationAction`.

Every state is an immutable value. Every operation is a pure function of the
old state and the outcome of whatever it awaited. A network call is one atomic
step whose reply is a parameter: an HTTP outcome, a page of records, or a
rejected promise. The clock, date parsing, JSON parsing and the random suffix
of generated ids are parameters too (`Env`, `Origin`, `Clock`).

JavaScript values are represented by `JsValue.Value`:

- `undefined`, `null`, booleans, integer numbers and strings;
- arrays;
- plain objects, kept as ordered property lists;
- action-builder instances.

`Truthy`, `Member` (optional-chaining property read), `Assign` (property
write), `JsonClone` (`JSON.parse(JSON.stringify(x))`) and `Spread` (`{...x}`)
follow the language's rules. A property read on `null`/`undefined` is a
`TypeError`. So is a property write on a primitive, because ES modules and
classes run in strict mode. An invalid `Date` turned into an ISO string is a
`RangeError`. Each of these is a `Thrown` result.

Files and modules:

| file | module | models |
|---|---|---|
| js_value.dfy | JsValue | JavaScript values, property access, JSON cloning, object spread |
| js_string.dfy | JsString | `startsWith`, `replace`, `split`/last segment, capital spacing, `trim`, decimal printing, `String(x)` |
| notification_list.dfy | NotificationList | the add/remove rules that the store and the manager share, and the unread-count invariant |
| store.dfy | Store | the Alpine store `notifications`, plus the action filters of the dropdown and item components |
| manager.dfy | Manager | `CakeNotificationManager`: loads, refresh merge, polling, mark-read outcomes, listeners |
| broadcasting_base.dfy | BroadcastingBase | the shared push-event adapter |
| mercure_broadcasting.dfy | MercureBroadcastingModule | the legacy Mercure adapter |
| pusher_broadcasting.dfy | BroadcastingModule | the legacy Pusher adapter |
| renderer.dfy | NotificationRenderer | template registry, list layout, title/message/icon/time-ago, action buttons |
| action_builder.dfy | ActionBuilder | `CakeNotificationAction` |
| notification_builder.dfy | NotificationBuilder | `CakeNotification` |

Invariant: a feed is `Consistent` when its ids are unique and `unreadCount`
equals the number of records whose `read_at` is falsy. Every add and remove,
every poll and every push event that adds a notification keeps a consistent
feed consistent. The two counter events take the server's count instead of
recounting. A `notification.marked-all-read` event whose payload is null
empties the list and then throws, so the old counter stays behind an empty
list (`BroadcastingBase.NullMarkAllReadBreaksCount`); every push event, thrown
or not, keeps the ids unique. Refresh loads keep the ids unique. Append loads,
which do not de-duplicate, can break uniqueness (`Store.AppendKeepsDuplicates`).

The store and the manager are modelled as two separate parties. The store's
calls into its manager (`loadNotifications` returning `{success, data,
hasMore, unreadCount}`, `markAsRead`/`markAllAsRead`/`deleteNotification`
returning a success flag) are replies passed in as parameters. That is the
contract the store is written against. It is not what `CakeNotificationManager`
provides; see "## Left out".

## Model

| member | source | states |
|---|---|---|
| NotificationList.IndexOf | webroot/js/NotificationStore.js:59 | `findIndex`: -1 exactly when no record has the id; otherwise the first record carrying it |
| NotificationList.Add | webroot/js/NotificationStore.js:42-56 | an id already present leaves the feed unchanged; a new record goes to index 0, flagged new, and the counter rises by 1 exactly when it is unread |
| NotificationList.Remove | webroot/js/NotificationStore.js:58-67 | an absent id is a no-op; otherwise exactly the first match is spliced out, and the counter drops by one, floored at 0, only if that record was unread |
| NotificationList.AddKeepsCount | webroot/js/NotificationStore.js:42-56 | on a consistent feed, add keeps `unreadCount` equal to the number of unread records |
| NotificationList.RemoveKeepsCount | webroot/js/NotificationStore.js:58-67 | on a consistent feed, remove keeps `unreadCount` equal to the number of unread records |
| NotificationList.RemoveUnreadDecrementsByOne | webroot/js/NotificationStore.js:62-64 | removing a present unread record from a consistent feed lowers the counter by exactly one |
| NotificationList.AddKeepsUnique | webroot/js/NotificationStore.js:43-46 | add never introduces a second record with an existing id |
| NotificationList.RemoveKeepsUnique | webroot/js/NotificationStore.js:59-65 | remove keeps ids unique, and the removed id is absent afterwards |
| NotificationList.AddIdempotent | webroot/js/NotificationStore.js:43-44 | adding the same record twice equals adding it once |
| NotificationList.RemoveIdempotent | webroot/js/NotificationStore.js:59-60 | removing the same id twice equals removing it once |
| NotificationList.EditsKeepConsistent | webroot/js/NotificationManager.js:42-61 | any sequence of adds and removes keeps a consistent feed consistent (the manager's `addNotification`/`removeNotification` use the same rules, lines 188-199) |
| NotificationList.CounterStaysNonNegative | webroot/js/NotificationStore.js:42-64 | add and remove never take a non-negative counter below zero; a small corollary of the `Math.max(0, …)` floor, kept for documentation |
| NotificationList.CountUnreadConcat | webroot/js/NotificationStore.js:114-115 | the unread count of a concatenation is the sum of the parts' counts |
| Store.AddNotification | webroot/js/NotificationStore.js:42-56 | the store's add is the shared add rule on its feed; no other field changes |
| Store.RemoveNotification | webroot/js/NotificationStore.js:58-67 | the store's remove is the shared remove rule on its feed; no other field changes |
| Store.Find | webroot/js/NotificationStore.js:70 | `find` by id: none exactly when no record carries the id; otherwise the first that does |
| Store.MarkAsRead | webroot/js/NotificationStore.js:69-103 | absent or read: no change, no manager call. Unread `notif-` id (`IsLocalId`): hidden locally (`HideLocally`) with no call. Otherwise the manager is called; a true reply removes it and decrements; a false reply changes nothing; a rejection hides it locally |
| Store.MarkAsReadKeepsValid | webroot/js/NotificationStore.js:69-103 | every outcome keeps a consistent store consistent |
| Store.MarkAsReadDecrementsByOne | webroot/js/NotificationStore.js:75-101 | when the unread record is removed, the counter falls by exactly one and the id is gone |
| Store.MarkAllAsRead | webroot/js/NotificationStore.js:105-117 | with no unread record: no change and no call; otherwise the manager is called, and on success the list is the read records in their original order and with their repeats, and the counter is 0 |
| Store.HideLocally | webroot/js/NotificationStore.js:76-81 | the record is spliced out and the counter drops by one, floored at zero; for a listed unread record, the only kind the store hides, this is exactly the shared remove |
| Store.FilterReadHasNoUnread | webroot/js/NotificationStore.js:114 | filtering on `read_at` leaves no unread record |
| Store.MarkAllAsReadKeepsOrder | webroot/js/NotificationStore.js:112-115 | after a successful mark-all-read, of two read records the earlier one is still listed first |
| Store.MarkAllAsReadKeepsValid | webroot/js/NotificationStore.js:105-117 | every outcome keeps a consistent store consistent |
| Store.StartLoad | webroot/js/NotificationStore.js:120-122 | ignored while loading or without an API url; otherwise sets `isLoading` and issues the page request |
| Store.FinishLoad | webroot/js/NotificationStore.js:124-142 | `isLoading` is false afterwards; on success, append concatenates with no de-duplication, refresh replaces, the page is recorded, `hasMore` is kept by truthiness, and the counter is overwritten only when the reply carries one |
| Store.LoadNotifications | webroot/js/NotificationStore.js:119-143 | a load is the start step followed by the finish step; a load that starts idle ends idle |
| Store.RefreshKeepsValid | webroot/js/NotificationStore.js:119-143 | a refresh with unique ids and a matching count yields a consistent store |
| Store.LoadMore | webroot/js/NotificationStore.js:145-149 | requests page `currentPage + 1` in append mode exactly when `hasMore` holds and no load is running |
| Store.Toggle | webroot/js/NotificationStore.js:155-160 | flips `isOpen`; it starts a first-page load exactly when the panel opens on an empty list with no load running |
| Store.LoadMoreAppends | webroot/js/NotificationStore.js:119-149 | a successful load-more keeps every listed record, in order, in front of the new page and moves to the next page; a failed one keeps the list and the page; loading is over either way |
| Store.NoLoadWhileLoading | webroot/js/NotificationStore.js:119-160 | while a load runs, neither load-more nor opening the dropdown starts another |
| Store.AppendKeepsDuplicates | webroot/js/NotificationStore.js:127-129 | a single example, not a general property: appending a page that repeats a listed record lists it twice, because the append path does not de-duplicate |
| Store.ToggleTwice | webroot/js/NotificationStore.js:155-160 | two toggles restore `isOpen` over the same list; at most one of them starts a load, and if neither does the store is back exactly as it was |
| Store.DeleteNotification | webroot/js/NotificationStore.js:313-318 | calls the manager's delete; removes the record only on a true reply |
| Store.ConvertAction | webroot/js/NotificationStore.js:262-266 | an action-builder instance becomes its `toObject()` value; any other value passes through; no instance remains |
| Store.DisplayActions | webroot/js/NotificationStore.js:258-277 | a falsy value gives `[]`, a non-array truthy value passes through, and an array becomes the order-preserving filter of its converted actions to those that are truthy with a truthy name or label |
| Store.ItemActions | webroot/js/NotificationStore.js:294-303 | a non-array gives `[]`; otherwise the order-preserving filter of the converted actions to the showable ones, none of them a builder instance |
| Store.ViewsAgreeOnArrays | webroot/js/NotificationStore.js:258-303 | the dropdown's and the item's filters agree on arrays |
| Store.NamedActionsKept | webroot/js/NotificationStore.js:297-302 | a list of plain, named actions passes the item filter unchanged |
| Store.ShownActionsKeepOrder | webroot/js/NotificationStore.js:297-302 | of two showable actions the earlier one's button comes first |
| Store.ItemActionsConcat | webroot/js/NotificationStore.js:297-302 | the buttons of a joined action list are the buttons of each part, one after the other |
| Store.BuilderActionShown | webroot/js/NotificationStore.js:297-302 | an action built with `make(name)` survives the item filter |
| Manager.LiftActions | webroot/js/NotificationManager.js:101-103 | `data.actions` is copied to `actions` only when the record has none of its own; `id`, `read_at` and `_source` are kept |
| Manager.LiftActionsKeeps | webroot/js/NotificationManager.js:101-103 | lifting changes no property other than `actions` |
| Manager.Normalize | webroot/js/NotificationManager.js:100-106 | a loaded record is tagged `api`, gets its actions lifted, and keeps its id and read state |
| Manager.Preserved | webroot/js/NotificationManager.js:112 | exactly the records not tagged `api` |
| Manager.Incoming | webroot/js/NotificationManager.js:113-115 | exactly the page records whose id no preserved record carries |
| Manager.HandleLoadSuccess | webroot/js/NotificationManager.js:99-126 | the counter becomes `meta.count`, or 0 when that is falsy; append concatenates the normalized page and keeps `lastCheckTime`; refresh keeps non-`api` records in front, then the new page records, and sets `lastCheckTime` |
| Manager.RefreshKeepsLocal | webroot/js/NotificationManager.js:112-117 | every non-`api` record survives a refresh, in its original order, as the prefix of the new list |
| Manager.RefreshReplacesApi | webroot/js/NotificationManager.js:113-117 | after the preserved prefix, every record is tagged `api` and carries an id no preserved record has |
| Manager.RefreshOnlyKeptOrNew | webroot/js/NotificationManager.js:112-117 | every record after a refresh is either preserved or a normalized page record; old `api` records are gone |
| Manager.RefreshKeepsUnique | webroot/js/NotificationManager.js:112-117 | a refresh over a feed and a page that each have unique ids yields unique ids |
| Manager.StartLoad | webroot/js/NotificationManager.js:64-66 | refused exactly while loading or without an API url; otherwise marks the manager loading |
| Manager.FinishLoad | webroot/js/NotificationManager.js:82-96 | `isLoading` is false afterwards; a successful page goes through the merge; a failed one changes nothing else |
| Manager.LoadNotifications | webroot/js/NotificationManager.js:63-97 | a refused load changes nothing; otherwise it is the finish step on the reply |
| Manager.MarkAsRead | webroot/js/NotificationManager.js:128-156 | an ok reply reloads the first page; a non-ok or thrown reply removes the record only when it is not tagged `api`; otherwise nothing changes |
| Manager.MarkAllAsRead | webroot/js/NotificationManager.js:158-179 | an ok reply empties the list and zeroes the counter; any other reply changes nothing |
| Manager.FailedMarkAsReadKeepsConsistent | webroot/js/NotificationManager.js:143-154 | a mark-read that does not get an ok response keeps a consistent list consistent, and repeating it changes nothing more |
| Manager.FailedMarkAsReadRemovesOnlyLocal | webroot/js/NotificationManager.js:143-154 | after a failed mark-read a server record is still listed and a listed local record is gone |
| Manager.MarkAllAsReadConsistent | webroot/js/NotificationManager.js:158-179 | mark-all-read leaves a consistent list whatever the response, and doing it twice is doing it once |
| Manager.ClearAllNotifications | webroot/js/NotificationManager.js:181-186 | an empty, consistent feed with counter 0; nothing else changes |
| Manager.Novel | webroot/js/NotificationManager.js:238-248 | the order-preserving filter by `IsNovel`: the polled records, in the order received, whose id is not yet present and whose date is either unparsable (an invalid `Date` never compares `<=`) or strictly after `lastCheckTime` |
| Manager.PreparePolled | webroot/js/NotificationManager.js:250-254 | a polled record keeps its id, its read state and its `_source` |
| Manager.CheckForNewNotifications | webroot/js/NotificationManager.js:217-261 | nothing changes while loading, before the first refresh, on a failed or empty poll; otherwise the novel records (`IsNovel`), prepared, are added one by one (`AddAll`); only the feed changes |
| Manager.CheckKeepsConsistent | webroot/js/NotificationManager.js:217-261 | a poll keeps a consistent feed consistent |
| Manager.CheckAddsOnlyNovel | webroot/js/NotificationManager.js:238-256 | every record a poll adds comes from a novel polled record |
| Manager.AddAllKeepsOld | webroot/js/NotificationManager.js:250-256 | a poll's `forEach` of adds (`AddAll`) never drops an existing record |
| Manager.AddAllKeepsConsistent | webroot/js/NotificationManager.js:250-256 | the `forEach` of adds keeps a consistent feed consistent, one add at a time |
| Manager.PolledRecordSurvivesRefresh | webroot/js/NotificationManager.js:250-256 | a record added by a poll is not tagged `api`, so a later refresh keeps it |
| Manager.On | webroot/js/NotificationManager.js:263-269 | appends the callback to that event's list only |
| Manager.Off | webroot/js/NotificationManager.js:271-275 | removes every registration of the callback for that event, keeps the other callbacks, and touches no other event |
| Manager.OffKeepsOrder | webroot/js/NotificationManager.js:273 | the remaining callbacks stay in their original order |
| Manager.OffUndoesOn | webroot/js/NotificationManager.js:263-275 | `off` after `on` restores a list that did not hold the callback |
| BroadcastingBase.ParsePayload | webroot/js/BroadcastingBase.js:35-42 | a non-string payload is used as is; a string is parsed, and an unparsable one drops the event |
| BroadcastingBase.FromTimestamp | webroot/js/BroadcastingBase.js:67 | `new Date(ts * 1000).toISOString()`: a `RangeError` for a missing or invalid timestamp, else the ISO string |
| BroadcastingBase.CreatedAt | webroot/js/BroadcastingBase.js:67 | a truthy `created_at` is kept verbatim; else a truthy timestamp is converted; else the current time |
| BroadcastingBase.NormalizeKeepsCreatedAt | webroot/js/BroadcastingBase.js:67 | the normalized record carries the payload's `created_at` verbatim |
| BroadcastingBase.CreatedAtAsWritten | webroot/js/MercureBroadcastingModule.js:112 | the legacy expression: when either `created_at` or `timestamp` is truthy, the value comes from the timestamp; otherwise the current time |
| BroadcastingBase.CreatedAtPrecedenceCounterexample | webroot/js/MercureBroadcastingModule.js:112 | a payload with only `created_at` throws a `RangeError` under the legacy expression and keeps its date under the base rule |
| BroadcastingBase.CreatedAtAsWrittenIgnoresCreatedAt | webroot/js/BroadcastingModule.js:125 | with both fields present, the legacy expression uses the timestamp and the base rule uses `created_at` |
| BroadcastingBase.SetIfPresent | webroot/js/BroadcastingBase.js:71-79 | a property is written only when the value is truthy |
| BroadcastingBase.WriteExtras | webroot/js/BroadcastingBase.js:71-79 | writing the lifted extras throws a `TypeError` exactly when some extra is truthy and the data slot is a primitive |
| BroadcastingBase.WriteExtrasFills | webroot/js/BroadcastingBase.js:71-79 | `icon`, `icon_class` and `action_url` in the data slot take the lifted value when it is truthy and keep their old value otherwise |
| BroadcastingBase.Literal | webroot/js/BroadcastingBase.js:61-69 | the record literal has exactly the keys id, title, message, type, data, created_at, _source, in that order |
| BroadcastingBase.LiteralActions | webroot/js/BroadcastingBase.js:80-82 | `actions` exists only when the lifted actions are truthy |
| BroadcastingBase.DataSlot | webroot/js/BroadcastingBase.js:66 | `data.data` when truthy, else the payload itself |
| BroadcastingBase.IdFor | webroot/js/BroadcastingBase.js:62-111 | the id is always truthy: the payload's truthy id, else a fresh id with the adapter's prefix |
| BroadcastingBase.Title | webroot/js/BroadcastingBase.js:63 | the first truthy of `title` and `data.title`, else the event name with every `.` replaced by a space |
| BroadcastingBase.Message | webroot/js/BroadcastingBase.js:64 | the first truthy of `message`, `data.message`, `body` and `data.body`, else `''` |
| BroadcastingBase.NestedExtras | webroot/js/BroadcastingBase.js:71-82 | each extra is truthy exactly when one of its top-level or nested spellings is, and a top-level value wins |
| BroadcastingBase.Kind | webroot/js/BroadcastingBase.js:65 | `type` when truthy, else the event name |
| BroadcastingBase.Normalize | webroot/js/BroadcastingBase.js:60-85 | fails with a `TypeError` on a null or undefined payload or when an extra cannot be written; otherwise yields the record literal with the extras written in |
| BroadcastingBase.NormalizeIdentity | webroot/js/BroadcastingBase.js:62-68 | the record's id comes from `IdFor` with prefix `broadcast-`; its type comes from `Kind`; it is tagged `broadcast` and unread |
| BroadcastingBase.NormalizeText | webroot/js/BroadcastingBase.js:63-82 | the record's title, message, created_at and actions are those of the field rules |
| BroadcastingBase.NormalizeData | webroot/js/BroadcastingBase.js:66-79 | the record's data is an object carrying the lifted extras, top-level values first |
| BroadcastingBase.NormalizeObjectPayload | webroot/js/BroadcastingBase.js:60-85 | an object payload normalizes whenever its `created_at` rule succeeds and its nested `data` is an object or falsy |
| BroadcastingBase.MarkAsReadUpdate | webroot/js/BroadcastingBase.js:87-98 | no store: nothing; a null payload throws before any write; otherwise the id is removed (one decrement at most), and the counter is overwritten exactly when `unread_count` is a number, 0 included |
| BroadcastingBase.MarkReadEventCount | webroot/js/BroadcastingBase.js:92-97 | on a consistent feed, ids stay unique; the counter is the payload number if there is one, else the consistent count after removal |
| BroadcastingBase.CrossTabMarkRead | webroot/js/BroadcastingBase.js:92-97 | from two unread records, `{notification_id:1}` and `{notification_id:1, unread_count:1}` both leave one record and a counter of 1 |
| BroadcastingBase.MarkAllAsReadUpdate | webroot/js/BroadcastingBase.js:100-107 | no store: nothing; otherwise the list is emptied and the counter becomes `unread_count`, or 0 when that is falsy; a null payload throws after the list was emptied, with the old counter kept |
| BroadcastingBase.MarkAllReadEmpties | webroot/js/BroadcastingBase.js:105-106 | the server's `{unread_count: 0}` payload leaves an empty, consistent feed |
| BroadcastingBase.NullMarkAllReadBreaksCount | webroot/js/BroadcastingBase.js:100-107 | a null payload, raw or as the text `null`, throws with the list emptied and a non-zero counter kept, so the feed is no longer consistent |
| BroadcastingBase.HandleEvent | webroot/js/BroadcastingBase.js:34-58 | unparsable payloads are dropped; the two counter events go to their handlers; any other event is normalized and added when a store is attached, and a normalization that throws leaves the store as it was |
| BroadcastingBase.NoStoreNoChange | webroot/js/BroadcastingBase.js:55-103 | with no store attached, every event, thrown or not, leaves no store |
| BroadcastingBase.HandleEventKeepsUnique | webroot/js/BroadcastingBase.js:34-58 | every push event, including one that throws part-way, leaves a store with unique ids |
| BroadcastingBase.AddEventKeepsCount | webroot/js/BroadcastingBase.js:54-57 | a notification event keeps a consistent feed consistent and raises the counter by one exactly when the record is new |
| BroadcastingBase.FailedAddLeavesStore | webroot/js/BroadcastingBase.js:54-57 | an event whose normalization throws leaves the store exactly as it was |
| MercureBroadcastingModule.Normalize | webroot/js/MercureBroadcastingModule.js:106-127 | the same record as the base adapter, except the id prefix `mercure-` and the legacy `created_at` expression |
| MercureBroadcastingModule.NormalizeMatchesBase | webroot/js/MercureBroadcastingModule.js:106-127 | for a payload with a truthy id and a falsy `created_at`, the module and the base adapter build the same record |
| MercureBroadcastingModule.GeneratedIdsDiffer | webroot/js/MercureBroadcastingModule.js:154-156 | an id generated here never equals one generated by the base adapter |
| MercureBroadcastingModule.MarkAsReadUpdate | webroot/js/MercureBroadcastingModule.js:132-141 | no manager: nothing; a null payload throws before any write; otherwise the id is removed and the counter becomes `unread_count` when truthy, else the post-removal counter minus one, floored at 0 |
| MercureBroadcastingModule.MarkReadDecrementsTwice | webroot/js/MercureBroadcastingModule.js:138-139 | removing an unread record with no `unread_count` lowers the counter by two, one below the true count |
| MercureBroadcastingModule.MarkReadIgnoresZero | webroot/js/MercureBroadcastingModule.js:139 | a server value of 0 is ignored here and honoured by the base adapter |
| MercureBroadcastingModule.CrossTabMarkRead | webroot/js/MercureBroadcastingModule.js:137-139 | from two unread records, `{notification_id:1}` ends at 0 here and at 1 in the base adapter |
| MercureBroadcastingModule.MarkAllAsReadUpdate | webroot/js/MercureBroadcastingModule.js:143-152 | same as the base adapter: an empty list and `unread_count` or 0, and on a null payload a throw with the list already emptied |
| MercureBroadcastingModule.HandleEvent | webroot/js/MercureBroadcastingModule.js:86-130 | unparsable payloads are dropped; counter events go to this module's handlers; others are normalized and added, and throw with nothing written when there is no manager |
| MercureBroadcastingModule.HandleEventKeepsUnique | webroot/js/MercureBroadcastingModule.js:86-130 | every event, thrown or not, keeps the manager's ids unique |
| MercureBroadcastingModule.NullMarkAllReadBreaksCount | webroot/js/MercureBroadcastingModule.js:143-152 | a null mark-all-read payload throws with the manager's list emptied and a non-zero counter kept |
| MercureBroadcastingModule.NoManagerThrows | webroot/js/MercureBroadcastingModule.js:129 | a notification event on a module without a manager throws a `TypeError` and leaves it without one |
| BroadcastingModule.Title | webroot/js/BroadcastingModule.js:121 | `title` when truthy, else the event name with dots turned into spaces, with no nested fallback |
| BroadcastingModule.Message | webroot/js/BroadcastingModule.js:122 | the first truthy of `message` and `body`, else `''` |
| BroadcastingModule.TopLevelExtras | webroot/js/BroadcastingModule.js:129-140 | only top-level `icon`, `icon_class`/`iconClass`, `action_url`/`actionUrl` and `actions` are lifted |
| BroadcastingModule.Normalize | webroot/js/BroadcastingModule.js:119-141 | the legacy record: `type` is copied with no fallback, `created_at` uses the legacy expression, and extras come from the top level only |
| BroadcastingModule.NormalizeFields | webroot/js/BroadcastingModule.js:120-126 | the record's id has prefix `broadcast-`, `type` is the payload's own, and it is tagged `broadcast` |
| BroadcastingModule.NestedExtrasIgnored | webroot/js/BroadcastingModule.js:129-140 | a payload whose extras sit only under `data` leaves the data slot untouched |
| BroadcastingModule.HandleEvent | webroot/js/BroadcastingModule.js:109-143 | with no event-name dispatch, every parsed event is normalized and added; a missing manager or a failed normalization throws with nothing written |
| BroadcastingModule.OnGlobalEvent | webroot/js/BroadcastingModule.js:102-106 | events whose name starts with `pusher:` are ignored; all others are handled |
| BroadcastingModule.PusherEventsIgnored | webroot/js/BroadcastingModule.js:103 | any `pusher:` event leaves the manager unchanged |
| BroadcastingModule.MarkedReadBecomesNotification | webroot/js/BroadcastingModule.js:119-142 | the server's mark-read payload becomes a new unread record: one more item and a counter one higher |
| BroadcastingModule.MarkedReadUpdatesCounter | webroot/js/BroadcastingBase.js:92-97 | the base adapter turns the same payload into a counter update |
| BroadcastingModule.HandleEventDispatched | webroot/js/BroadcastingBase.js:44-57 | the corrected handler drops unparsable payloads, dispatches the two counter events to the base handlers, half-written mark-all-read included, and adds everything else |
| BroadcastingModule.DispatchedMarkReadNeverAdds | webroot/js/BroadcastingBase.js:44-47 | under the corrected handler, a mark-read event, thrown or not, never adds a record and keeps ids unique |
| BroadcastingModule.HandleEventKeepsUnique | webroot/js/BroadcastingModule.js:102-106 | every global event, thrown or not, keeps the feed's ids unique |
| BroadcastingModule.DispatchedNullMarkAllRead | webroot/js/BroadcastingBase.js:100-107 | under the corrected handler a null mark-all-read payload leaves the same inconsistent feed as the base adapter |
| NotificationRenderer.Create | webroot/js/NotificationRenderer.js:8-25 | exactly the nine template slots exist, all empty; `markReadOnClick` is true when the option is absent and otherwise the option's truthiness, an explicit `undefined` included |
| NotificationRenderer.RegisterTemplate | webroot/js/NotificationRenderer.js:27-34 | a known name gets the new template; an unknown name changes nothing; the slot set never changes |
| NotificationRenderer.RegisterTemplates | webroot/js/NotificationRenderer.js:36-41 | registering many keeps the slot set and the options |
| NotificationRenderer.GetTemplate | webroot/js/NotificationRenderer.js:43-45 | the custom template exactly when the slot holds one, else the default |
| NotificationRenderer.GetAfterRegister | webroot/js/NotificationRenderer.js:27-45 | after registering a template under a known name it is returned; registering none restores the default; unknown names stay default |
| NotificationRenderer.OnlyKnownNamesOverride | webroot/js/NotificationRenderer.js:14-45 | a name outside the nine slots always yields the default, whatever was registered |
| NotificationRenderer.RegisterTemplatesKeepsOthers | webroot/js/NotificationRenderer.js:36-41 | names not registered keep their template |
| NotificationRenderer.RenderNotifications | webroot/js/NotificationRenderer.js:47-57 | a non-array or empty list gives only the empty state; otherwise the list throws exactly when some entry's rendering throws, with the first such error; when none does, one item per entry in order, followed by a load-more footer exactly when `hasMore` |
| NotificationRenderer.OneBadEntrySinksList | webroot/js/NotificationRenderer.js:53 | one entry whose rendering throws makes the whole list throw, footer included |
| NotificationRenderer.NumericTypeSinksList | webroot/js/NotificationRenderer.js:53-60 | under the built-in templates a record with a numeric `type` makes the list throw, whatever records precede it |
| NotificationRenderer.NullEntrySinksList | webroot/js/NotificationRenderer.js:53-60 | under the built-in templates a null entry makes the list throw a TypeError |
| NotificationRenderer.RegisteredItemsNeverThrow | webroot/js/NotificationRenderer.js:53-62 | a registered notification template is handed every entry in order and the list never throws |
| JsValue.MapAll | webroot/js/NotificationRenderer.js:53 | `map` with a throwing callback: all results in order, or exactly the error of the first element whose call throws |
| NotificationRenderer.EmptyStateExcludesFooter | webroot/js/NotificationRenderer.js:47-57 | in a list that renders, the empty state is never combined with other pieces, and the footer only ever comes last |
| NotificationRenderer.ClassTitleClean | webroot/js/NotificationRenderer.js:215-217 | a derived class title holds no backslash and no leading or trailing space |
| NotificationRenderer.ClassTitleExample | webroot/js/NotificationRenderer.js:215-217 | `App\Notification\PostPublished` gives `Post Published` |
| NotificationRenderer.TypeTitle | webroot/js/NotificationRenderer.js:215-217 | a missing type gives `''`; a string type gives its class title; a truthy non-string type throws a `TypeError` |
| NotificationRenderer.Title | webroot/js/NotificationRenderer.js:208-218 | `data.title` first, then `title`, then the type-derived title |
| NotificationRenderer.Message | webroot/js/NotificationRenderer.js:220-231 | always truthy: `data.message`, then `message`, then `data.title`, else the fixed default sentence |
| NotificationRenderer.FirstTruthyIsFirst | webroot/js/NotificationRenderer.js:220-231 | a `\|\|` chain yields one of its own values with every earlier one falsy, or its fallback when all are falsy |
| NotificationRenderer.MessageIsFirstTruthy | webroot/js/NotificationRenderer.js:220-231 | the message is the `\|\|` chain of `data.message`, `message`, `data.title` and the default sentence |
| NotificationRenderer.GetIcon | webroot/js/NotificationRenderer.js:189-206 | `icon_class` wins; a known icon name gives its svg; an unknown one gives the bell; neither gives none |
| NotificationRenderer.KnownIconRenders | webroot/js/NotificationRenderer.js:189-206 | a known icon name in `data.icon` with no icon class is drawn as that svg |
| NotificationRenderer.ElapsedSeconds | webroot/js/NotificationRenderer.js:241 | the whole seconds elapsed, rounded down, including negative spans |
| NotificationRenderer.FormatTimeAgo | webroot/js/NotificationRenderer.js:233-260 | an unparsable date is returned unchanged; a parsed one always gives a string |
| NotificationRenderer.TimeAgoBuckets | webroot/js/NotificationRenderer.js:241-259 | under 60 s (negative included) `just now`; then minutes, hours, days and weeks with the right quotient and suffix; from 30 days the locale date |
| NotificationRenderer.TimeAgoCountsInRange | webroot/js/NotificationRenderer.js:245-256 | the text `formatTimeAgo` shows in each band carries a count in that unit's natural range: `1m`-`59m ago`, `1h`-`23h ago`, `1d`-`6d ago`, `1w`-`4w ago` |
| NotificationRenderer.RenderAction | webroot/js/NotificationRenderer.js:136-152 | a null or undefined action throws; the button is a link exactly when `url` is truthy; the name falls back from `name` to `url` to `action`; the color class is from `color`, then `type`, else empty |
| NotificationRenderer.LinkActionRenders | webroot/js/NotificationRenderer.js:136-152 | an action object with a name, a URL and a color, not disabled, is an enabled link button with class `btn-<color>` |
| NotificationRenderer.RenderIcon | webroot/js/NotificationRenderer.js:69-72 | a registered icon template draws the icon; otherwise the built-in icon of the record |
| NotificationRenderer.RenderButton | webroot/js/NotificationRenderer.js:79-82 | a registered action template gets the action, whatever it is; the built-in button throws exactly on a null or undefined action |
| NotificationRenderer.RenderButtons | webroot/js/NotificationRenderer.js:131-134 | succeeds exactly when every action renders, and then gives one button per action, in order |
| NotificationRenderer.RenderActions | webroot/js/NotificationRenderer.js:74-77 | a registered actions template gets the value as it is; the built-in one throws a `TypeError` on anything but an array, and otherwise renders the buttons |
| NotificationRenderer.RenderContent | webroot/js/NotificationRenderer.js:64-67 | a registered content template draws the content; the built-in one shows the derived title and message and the slot-drawn icon, and throws exactly when the title does |
| NotificationRenderer.ActionsOf | webroot/js/NotificationRenderer.js:93 | `notification.actions \|\| []`: a truthy `actions` is taken as it is, anything falsy becomes the empty array |
| NotificationRenderer.RenderItem | webroot/js/NotificationRenderer.js:84-109 | the mark-read button exactly for unread records, click-to-mark only when enabled as well, a link exactly when `data.action_url` is truthy, the content from its slot, a footer exactly when `actions.length > 0` (`HasActions` of `ActionsOf`); it throws exactly when the content or that footer throws |
| NotificationRenderer.ReadRecordHasNoMarkControls | webroot/js/NotificationRenderer.js:101-105 | a read record never gets the mark-read button or click-to-mark |
| NotificationRenderer.RenderNotification | webroot/js/NotificationRenderer.js:59-90 | a registered notification template is handed the entry as it is; the built-in item throws a TypeError on a null or undefined entry and otherwise draws the entry's properties, failing exactly when the item does |
| NotificationRenderer.DefaultItemRenders | webroot/js/NotificationRenderer.js:84-136 | under the built-in templates an item renders exactly when its title can be derived and any non-empty `actions` is an array without null entries |
| NotificationRenderer.ArrayLikeActions | webroot/js/NotificationRenderer.js:89-107 | `actions: {length: 2}` passes the length test; the built-in actions template then throws, a registered one receives the object |
| NotificationRenderer.RegisteredPartsNeverThrow | webroot/js/NotificationRenderer.js:64-77 | with the content and actions templates registered, the built-in item always renders |
| ActionBuilder.Make | webroot/js/NotificationAction.js:14-31 | a new action has exactly the ten fields; the label equals the name; the flags are false; the rest are null |
| ActionBuilder.Set | webroot/js/NotificationAction.js:33-78 | a setter changes only its own field and keeps the key order |
| ActionBuilder.Name | webroot/js/NotificationAction.js:33-36 | only `name` changes |
| ActionBuilder.Label | webroot/js/NotificationAction.js:38-41 | only `label` changes |
| ActionBuilder.Color | webroot/js/NotificationAction.js:43-46 | only `color` changes |
| ActionBuilder.Icon | webroot/js/NotificationAction.js:48-51 | only `icon` changes |
| ActionBuilder.Url | webroot/js/NotificationAction.js:53-57 | sets `url`; `openInNewTab` becomes false unless a second argument is given; nothing else changes |
| ActionBuilder.OpenUrlInNewTab | webroot/js/NotificationAction.js:59-62 | only `openInNewTab` changes, to true by default |
| ActionBuilder.Dispatch | webroot/js/NotificationAction.js:64-68 | sets `event`; `eventData` becomes null unless data is given; nothing else changes |
| ActionBuilder.Close | webroot/js/NotificationAction.js:70-73 | only `shouldClose` changes, to true by default |
| ActionBuilder.Disabled | webroot/js/NotificationAction.js:75-78 | only `isDisabled` changes, to true by default |
| ActionBuilder.Button | webroot/js/NotificationAction.js:80-82 | only the color changes, to `primary` |
| ActionBuilder.Link | webroot/js/NotificationAction.js:84-86 | the action is unchanged |
| ActionBuilder.Danger | webroot/js/NotificationAction.js:88-90 | only the color changes, to `danger` |
| ActionBuilder.Success | webroot/js/NotificationAction.js:92-94 | only the color changes, to `success` |
| ActionBuilder.Warning | webroot/js/NotificationAction.js:96-98 | only the color changes, to `warning` |
| ActionBuilder.Info | webroot/js/NotificationAction.js:100-102 | only the color changes, to `info` |
| ActionBuilder.ToObject | webroot/js/NotificationAction.js:104-106 | the result is a JSON-plain object, equal to the fields whenever they already are JSON-plain |
| ActionBuilder.FromObject | webroot/js/NotificationAction.js:108-112 | throws a `TypeError` exactly for null or undefined; an object becomes an action with a copy of its properties |
| ActionBuilder.FromObjectToObject | webroot/js/NotificationAction.js:104-112 | for a JSON-plain object, `fromObject(obj).toObject()` equals `obj` |
| ActionBuilder.ToObjectFromObject | webroot/js/NotificationAction.js:104-112 | for an action with JSON-plain fields, `fromObject(a.toObject())` gives back the same action |
| ActionBuilder.MakeIsPlain | webroot/js/NotificationAction.js:104-106 | a freshly made action with a string name converts to its own fields |
| NotificationBuilder.GenerateId | webroot/js/Notification.js:144-146 | a generated id always starts with `notif-` |
| NotificationBuilder.Make | webroot/js/Notification.js:16-35 | a new record has exactly the twelve fields: the given truthy id or a generated one, null texts and extras, empty actions and data, the creation time, `read_at` null, source `js` |
| NotificationBuilder.MadeWithoutIdIsLocal | webroot/js/Notification.js:144-146 | a record made without an id is one the store treats as local-only, and it is unread |
| NotificationBuilder.Set | webroot/js/Notification.js:37-79 | a top-level setter changes only its own field and keeps the key order |
| NotificationBuilder.Id | webroot/js/Notification.js:37-40 | only `id` changes |
| NotificationBuilder.Title | webroot/js/Notification.js:42-45 | only `title` changes |
| NotificationBuilder.Message | webroot/js/Notification.js:47-50 | only `message` changes |
| NotificationBuilder.Body | webroot/js/Notification.js:52-54 | has exactly the effect of `message`; no `body` field is written |
| NotificationBuilder.Type | webroot/js/Notification.js:56-59 | only `type` changes |
| NotificationBuilder.Actions | webroot/js/Notification.js:76-79 | only `actions` changes |
| NotificationBuilder.SetData | webroot/js/Notification.js:61-88 | a write into `data` succeeds exactly when `data` is an object |
| NotificationBuilder.SetDataReads | webroot/js/Notification.js:61-88 | the write changes only that key of `data`, and no top-level field other than `data` |
| NotificationBuilder.IconWritesData | webroot/js/Notification.js:61-64 | `icon(x)` (`NotificationBuilder.Icon`) sets `data.icon` and leaves the top-level `icon` alone |
| NotificationBuilder.IconClassWritesData | webroot/js/Notification.js:66-69 | `iconClass(x)` (`NotificationBuilder.IconClass`) sets `data.icon_class` and leaves the top-level field alone |
| NotificationBuilder.ActionUrlWritesData | webroot/js/Notification.js:71-74 | `actionUrl(x)` (`NotificationBuilder.ActionUrl`) sets `data.action_url` and leaves the top-level field alone |
| NotificationBuilder.Data | webroot/js/Notification.js:81-88 | an object key is shallow-merged; another key with a defined value sets one entry under the key's string form; an undefined value changes nothing |
| NotificationBuilder.DataMerge | webroot/js/Notification.js:82-83 | after a merge, incoming keys take the incoming values and all other keys keep the old ones |
| NotificationBuilder.DataSetsOneKey | webroot/js/Notification.js:84-85 | `data(k, v)` changes exactly key `k` of `data` and no other field |
| NotificationBuilder.Preset | webroot/js/Notification.js:90-108 | a preset fails exactly when `data` is not an object |
| NotificationBuilder.PresetFields | webroot/js/Notification.js:90-108 | a preset sets `type` and `data.icon` and nothing else |
| NotificationBuilder.PresetsSetTypeAndIcon | webroot/js/Notification.js:90-108 | `Success`, `Warning`, `Danger` and `Info`: success gives `success`/`check`, warning `warning`/`alert`, danger `danger`/`alert`, info `info`/`info` |
| NotificationBuilder.ErrorIsDanger | webroot/js/Notification.js:102-104 | `error()` (`NotificationBuilder.Error`) gives type `danger` and icon `alert`, the same as `danger()` |
| NotificationBuilder.PresetIconsAreKnown | webroot/js/Notification.js:90-108 | every preset icon is one the renderer has an svg for |
| NotificationBuilder.PresetIconRenders | webroot/js/Notification.js:90-108 | a preset's icon is drawn as that preset's own svg whenever the data names no icon class |
| NotificationBuilder.PresetsRenderTheirIcons | webroot/js/Notification.js:90-108 | success, warning, error and info notifications are drawn with the check, alert, alert and info svgs |
| NotificationBuilder.BuiltLinkPlain | webroot/js/NotificationAction.js:104-106 | an action made from a name and given a URL and a color converts to its own data |
| NotificationBuilder.LinkKeepsOtherFields | webroot/js/NotificationAction.js:43-57 | `url` then `color` set those two fields and the new-tab flag, and no other field |
| NotificationBuilder.BuiltActionRenders | webroot/js/NotificationRenderer.js:136-152 | such an action, converted, is drawn as an enabled link under its name and URL, class `btn-<color>`, captioned with its name |
| NotificationBuilder.MadeActionRenders | webroot/js/NotificationRenderer.js:136-152 | a freshly made action, converted, is drawn as a custom button under its name, with no color class |
| NotificationBuilder.ToObjectAsWritten | webroot/js/Notification.js:125-136 | the record as the code builds it: a JSON-plain object |
| NotificationBuilder.ToObjectAsWrittenWrapsBuilders | webroot/js/Notification.js:126-134 | an action builder in `actions` comes out as `{_data: …}`, not as its own `toObject()` |
| NotificationBuilder.WrappedActionLosesName | webroot/js/Notification.js:126-134 | the renderer names such a wrapped action `action` instead of the builder's name |
| NotificationBuilder.ConvertAction | webroot/js/Notification.js:128-133 | a builder becomes its `toObject()`; a JSON-plain value stays as it is |
| NotificationBuilder.ConvertActions | webroot/js/Notification.js:127-134 | an `actions` array is converted element by element; anything else is untouched |
| NotificationBuilder.ToObject | webroot/js/Notification.js:125-136 | the corrected record: JSON-plain, and equal to the fields whenever they already are JSON-plain |
| NotificationBuilder.ToObjectConvertsBuilders | webroot/js/Notification.js:127-134 | under the corrected conversion, an action builder comes out as its own `toObject()` |
| NotificationBuilder.FromObject | webroot/js/Notification.js:138-142 | throws a `TypeError` exactly for null or undefined; an object becomes a builder over a copy of its properties |
| NotificationBuilder.FromObjectToObject | webroot/js/Notification.js:125-142 | for a JSON-plain object, `fromObject(obj).toObject()` equals `obj` under both conversions |
| NotificationBuilder.ToObjectFromObject | webroot/js/Notification.js:125-142 | for a builder with JSON-plain fields, `fromObject(b.toObject())` gives back the same builder |
| JsString.SpacingRoundTrip | webroot/js/NotificationRenderer.js:217 | inserting a space before each capital can be undone, so no information is lost |
| JsString.DecimalRoundTrip | webroot/js/NotificationRenderer.js:246 | the printed count parses back to the number |
| JsValue.LookupMerge | webroot/js/Notification.js:83 | in `{...a, ...b}` a key of `b` takes `b`'s value and any other key keeps `a`'s |

## Left out

- Events. `emit`, window `CustomEvent`s and listener invocation are not modelled. `On`/`Off` model the registry only.
- Timers. The 5-second `setTimeout` that clears `_isNew`, `setInterval` polling (`startPolling`/`stopPolling`) and the interleaving of awaits are out of scope. Each async operation is one atomic step with its reply as a parameter.
- I/O and parsing. `fetch`, URL building, the CSRF meta lookup, `JSON.parse` of push payloads and `Date` parsing are parameters. So is `toLocaleDateString`.
- Id generation. `Date.now()` and `Math.random()` become a given suffix.
- HTML. Rendering produces structured pieces instead of HTML strings, and `escapeHtml` (which uses the DOM) is not modelled.
- Widget internals. Store `init`, `setOpen`, the dropdown component's DOM handling and `handleAction` (navigation and custom events) are not modelled. Neither is the widget's `99+` badge clamp.
- Adapter transport. The adapters' connection set-up, `init`, `subscribeToChannel` and `destroy` belong to Echo, Pusher and Mercure. Only their event handlers are modelled.
- `send()` in Notification.js. It hands `toObject()` to whichever global store or manager exists. The model covers `toObject()` and the store and manager adds, not the global lookup.
- Manager `getNotifications`/`getUnreadCount`. These are plain reads and need no model.
- Numbers are integers. Fractional timestamps and counts are not represented.
- JsValue.NumOr: a counter field that is truthy but not a number (say the string `"3"`) falls back to the default, where the source would store the string itself.
- JsValue.Member: an action-builder instance exposes only its `_data` property. The `typeof action.toObject === 'function'` branch is modelled by matching on the instance, not by reading a method.
- JsValue.SetMember: a property write on an array or a builder instance is a no-op, not a new property.
- Manager.On: `this.listeners` is a plain `{}`, so an event name that is an `Object.prototype` member (`constructor`, `toString`, …) reads an inherited function; `push` on it is not a function and the source throws a TypeError. The model keeps listeners in a map and appends for every name. None of the manager's own event names is such a member.
- Manager.Off: for the same names the source's `filter` call on the inherited function throws a TypeError; the model finds no registration for the name and returns the state unchanged.
- Store.FinishLoad: the store is modelled against the manager contract it calls, not the shipped `CakeNotificationManager`. That manager's `loadNotifications`, `markAsRead` and `markAllAsRead` resolve to `undefined`, it has no `deleteNotification`, and it is published as `window.CakeNotificationManager` while the store looks for `window.NotificationManager`. Wired to it, the store would throw on `result.success` after every load, never hide a server record on mark-read nor clear read ones on mark-all-read, and throw on delete. So the loaded branch of Store.FinishLoad, Store.RefreshKeepsValid, Store.LoadMoreAppends and Store.DeleteNotification describe the store under a manager that keeps the contract, not under the one in this repository.
- NotificationRenderer.GetIcon: an icon name that names an `Object.prototype` member (such as `constructor`) is treated as unknown.
- NotificationRenderer.RegisterTemplate: a truthy value that is not a function would throw when called; templates are modelled as opaque handles.
- NotificationRenderer.RenderItem: a registered template is an opaque handle. The model records which template draws a part and what it is handed, not what it returns, and takes it to return normally.
- NotificationRenderer.HasActions: an object whose `length` is a numeric string or a one-element array would pass `length > 0` by number conversion; such objects are treated as having no actions.
- NotificationBuilder.Preset: `success()`, `warning()`, `error()` and `info()` run `type(t)` before `icon(i)`; when `data` is a primitive the icon write throws after `type` was already changed on the builder. The model's `Thrown` result carries no builder, so that partial write is not represented.
- NotificationList.IdOf: ids are compared by value. The source's `===` compares object and array ids by reference, so two equal-looking object ids would count as different there; the ids the server and the builders produce are strings and numbers.
- NotificationBuilder.FromObject: the shallow spread shares the nested `data` object with the argument, so later writes would show through both. Values here are immutable and that sharing is not modelled.
- JsValue.LookupMerge: the merge lemmas assume the incoming object has no repeated keys, which holds for every JavaScript object.

## Findings

| source | as written | input that shows it | evidently intended | confidence | as-written member | corrected member |
|---|---|---|---|---|---|---|
| webroot/js/MercureBroadcastingModule.js:112 (also webroot/js/BroadcastingModule.js:125) | `created_at: data.created_at \|\| data.timestamp ? fromTimestamp : now` parses as `(created_at \|\| timestamp) ? …`, so `created_at` is never copied | `{created_at: "2024-01-01T00:00:00Z"}` with no timestamp: `new Date(NaN).toISOString()` throws a `RangeError` | `created_at \|\| (timestamp ? … : now)`, as in webroot/js/BroadcastingBase.js:67 | high, not executed | BroadcastingBase.CreatedAtAsWritten (BroadcastingBase.CreatedAtPrecedenceCounterexample) | BroadcastingBase.CreatedAt (BroadcastingBase.NormalizeKeepsCreatedAt) |
| webroot/js/MercureBroadcastingModule.js:138-139 | `removeNotification` already decrements, then `unread_count \|\| max(0, count - 1)` decrements again, and a server value of 0 is discarded | two unread records, counter 2, event `{notification_id: 1}`: the counter ends at 0 with one unread record left | one decrement, and a numeric `unread_count` (0 included) taken verbatim, as in webroot/js/BroadcastingBase.js:92-97 | high, not executed | MercureBroadcastingModule.MarkAsReadUpdate (MercureBroadcastingModule.MarkReadDecrementsTwice, MercureBroadcastingModule.MarkReadIgnoresZero) | BroadcastingBase.MarkAsReadUpdate (BroadcastingBase.MarkReadEventCount) |
| webroot/js/BroadcastingModule.js:109-143 | every event is normalized into a notification; there is no dispatch on `notification.marked-read` / `notification.marked-all-read` | `notification.marked-read` with `{notification_id: 1, unread_count: 4}` adds a new unread record and raises the counter by one | dispatch the two counter events to their handlers, as in webroot/js/BroadcastingBase.js:44-52 | medium, not executed | BroadcastingModule.HandleEvent (BroadcastingModule.MarkedReadBecomesNotification) | BroadcastingModule.HandleEventDispatched (BroadcastingModule.DispatchedMarkReadNeverAdds) |
| webroot/js/Notification.js:125-136 | the record is JSON-cloned first, so an action builder is already `{_data: {…}}` and the `toObject` check on line 129 never succeeds | `make().actions([CakeNotificationAction.make("view")]).toObject()` gives `actions: [{_data: {name: "view", …}}]`, which the renderer names `action` | convert builder actions with their `toObject()` before cloning | high, not executed | NotificationBuilder.ToObjectAsWritten (NotificationBuilder.ToObjectAsWrittenWrapsBuilders, NotificationBuilder.WrappedActionLosesName) | NotificationBuilder.ToObject (NotificationBuilder.ToObjectConvertsBuilders) |
