/**
  The fluent builder for notification records. A builder instance is its
  `_data` object; the setters overwrite one top-level field, or one key of
  the nested `data` object, and `toObject`/`fromObject` convert to and from
  plain records. The clock and the random part of a generated id are
  parameters.
 */
module NotificationBuilder {
  import opened JsValue
  import opened JsString
  import ActionBuilder
  import Store
  import NotificationList
  import NotificationRenderer

  /** A builder instance; `data` is its `_data` object. */
  datatype Builder = Builder(data: Object)

  /** What a fresh builder takes from its surroundings: `Date.now()`, the random id suffix, the ISO time. */
  datatype Origin = Origin(millis: int, random: string, iso: string)

  /** The keys of a fresh builder's `_data`, in creation order. */
  const Fields: seq<string> :=
    ["id", "title", "message", "type", "icon", "icon_class", "action_url", "actions",
     "created_at", "read_at", "data", "_source"]

  /** `generateId()`: `notif-<millis>-<random>`. */
  function GenerateId(origin: Origin): (r: string)
    ensures StartsWith(r, "notif-")
  {
    "notif-" + IntToDecimal(origin.millis) + "-" + origin.random
  }

  /** The `_data` of a fresh builder. */
  function FreshData(id: Value, origin: Origin): (o: Object)
    ensures Keys(o) == Fields
  {
    [Prop("id", if Truthy(id) then id else Str(GenerateId(origin))),
     Prop("title", Null), Prop("message", Null), Prop("type", Null),
     Prop("icon", Null), Prop("icon_class", Null), Prop("action_url", Null),
     Prop("actions", Arr([])), Prop("created_at", Str(origin.iso)), Prop("read_at", Null),
     Prop("data", Obj([])), Prop("_source", Str("js"))]
  }

  // Unfolding helpers, not properties: each reads two fields of the literal `FreshData` back,
  // so that `Make` can state its fields without one large proof.

  lemma FreshText(id: Value, origin: Origin)
    ensures Lookup(FreshData(id, origin), "title") == Null && Lookup(FreshData(id, origin), "message") == Null
  {
    LookupFirst(FreshData(id, origin), 1, "title");
    LookupFirst(FreshData(id, origin), 2, "message");
  }

  lemma FreshLooks(id: Value, origin: Origin)
    ensures Lookup(FreshData(id, origin), "type") == Null && Lookup(FreshData(id, origin), "icon") == Null
  {
    LookupFirst(FreshData(id, origin), 3, "type");
    LookupFirst(FreshData(id, origin), 4, "icon");
  }

  lemma FreshLinks(id: Value, origin: Origin)
    ensures Lookup(FreshData(id, origin), "icon_class") == Null && Lookup(FreshData(id, origin), "action_url") == Null
  {
    LookupFirst(FreshData(id, origin), 5, "icon_class");
    LookupFirst(FreshData(id, origin), 6, "action_url");
  }

  lemma FreshTimes(id: Value, origin: Origin)
    ensures Lookup(FreshData(id, origin), "created_at") == Str(origin.iso)
    ensures Lookup(FreshData(id, origin), "read_at") == Null
  {
    LookupFirst(FreshData(id, origin), 8, "created_at");
    LookupFirst(FreshData(id, origin), 9, "read_at");
  }

  lemma FreshContainers(id: Value, origin: Origin)
    ensures Lookup(FreshData(id, origin), "actions") == Arr([]) && Lookup(FreshData(id, origin), "data") == Obj([])
  {
    LookupFirst(FreshData(id, origin), 7, "actions");
    LookupFirst(FreshData(id, origin), 10, "data");
  }

  lemma FreshSource(id: Value, origin: Origin)
    ensures Lookup(FreshData(id, origin), "_source") == Str("js")
  {
    LookupFirst(FreshData(id, origin), 11, "_source");
  }

  /**
    `new CakeNotification(id)` (and `make(id)`): the given id, or a
    generated `notif-` id when it is missing or falsy; an unread record
    with no actions, an empty `data` object, the current time and source `js`.
   */
  function Make(id: Value, origin: Origin): (b: Builder)
    ensures Keys(b.data) == Fields
    ensures Truthy(id) ==> Lookup(b.data, "id") == id
    ensures !Truthy(id) ==> Lookup(b.data, "id") == Str(GenerateId(origin))
    ensures Lookup(b.data, "title") == Null && Lookup(b.data, "message") == Null
    ensures Lookup(b.data, "type") == Null && Lookup(b.data, "icon") == Null
    ensures Lookup(b.data, "icon_class") == Null && Lookup(b.data, "action_url") == Null
    ensures Lookup(b.data, "actions") == Arr([]) && Lookup(b.data, "data") == Obj([])
    ensures Lookup(b.data, "created_at") == Str(origin.iso) && Lookup(b.data, "read_at") == Null
    ensures Lookup(b.data, "_source") == Str("js")
  {
    LookupFirst(FreshData(id, origin), 0, "id");
    FreshText(id, origin);
    FreshLooks(id, origin);
    FreshLinks(id, origin);
    FreshTimes(id, origin);
    FreshContainers(id, origin);
    FreshSource(id, origin);
    Builder(FreshData(id, origin))
  }

  /** A builder made without an id yields an unread record that the store keeps local. */
  lemma MadeWithoutIdIsLocal(id: Value, origin: Origin)
    requires !Truthy(id)
    ensures Store.IsLocalId(Lookup(Make(id, origin).data, "id"))
    ensures NotificationList.IsUnread(Make(id, origin).data)
  {
  }

  // ----- top-level setters -----

  /** `r` differs from `b` at most in the top-level key `k`, which now holds `v`. */
  ghost predicate OnlyChanged(b: Builder, r: Builder, k: string, v: Value) {
    && Lookup(r.data, k) == v
    && (forall k' :: k' != k ==> Lookup(r.data, k') == Lookup(b.data, k'))
  }

  /** `this._data[k] = v`, the write every top-level setter performs. */
  function Set(b: Builder, k: string, v: Value): (r: Builder)
    ensures OnlyChanged(b, r, k, v)
    ensures HasKey(b.data, k) ==> Keys(r.data) == Keys(b.data)
  {
    LookupAssignAll(b.data, k, v);
    Builder(Assign(b.data, k, v))
  }

  function Id(b: Builder, id: Value): (r: Builder)
    ensures OnlyChanged(b, r, "id", id)
  {
    Set(b, "id", id)
  }

  function Title(b: Builder, title: Value): (r: Builder)
    ensures OnlyChanged(b, r, "title", title)
  {
    Set(b, "title", title)
  }

  function Message(b: Builder, message: Value): (r: Builder)
    ensures OnlyChanged(b, r, "message", message)
  {
    Set(b, "message", message)
  }

  /** `body(x)`: another name for `message(x)`. */
  function Body(b: Builder, body: Value): (r: Builder)
    ensures OnlyChanged(b, r, "message", body)
    ensures Lookup(r.data, "body") == Lookup(b.data, "body")
  {
    Message(b, body)
  }

  function Type(b: Builder, kind: Value): (r: Builder)
    ensures OnlyChanged(b, r, "type", kind)
  {
    Set(b, "type", kind)
  }

  function Actions(b: Builder, actions: Value): (r: Builder)
    ensures OnlyChanged(b, r, "actions", actions)
  {
    Set(b, "actions", actions)
  }

  // ----- the nested data object -----

  /** The builder's `data` object as a value. */
  function DataOf(b: Builder): Value {
    Lookup(b.data, "data")
  }

  /**
    `this._data.data[k] = v`: writes into the nested object. Writing into a
    `data` that is not an object (possible after `fromObject`) throws.
   */
  function SetData(b: Builder, k: string, v: Value): (r: Result<Builder>)
    ensures r.Ok? <==> IsObject(DataOf(b))
    ensures r.Ok? && DataOf(b).Obj? ==> DataOf(r.value).Obj?
  {
    match SetMember(DataOf(b), k, v)
    case Thrown(e) => Thrown(e)
    case Ok(d) =>
      LookupAssign(b.data, "data", d, "data");
      Ok(Builder(Assign(b.data, "data", d)))
  }

  /** Only the `data` field changes at the top level, and inside it only key `k`. */
  lemma SetDataReads(b: Builder, k: string, v: Value, k': string)
    requires IsObject(DataOf(b))
    ensures k' != "data" ==> Lookup(SetData(b, k, v).value.data, k') == Lookup(b.data, k')
    ensures DataOf(b).Obj? ==> Member(DataOf(SetData(b, k, v).value), k') == if k' == k then v else Member(DataOf(b), k')
  {
    var d := SetMember(DataOf(b), k, v).value;
    LookupAssign(b.data, "data", d, k');
    LookupAssign(b.data, "data", d, "data");
  }

  /** `icon(x)`: sets `data.icon`. */
  function Icon(b: Builder, icon: Value): Result<Builder> {
    SetData(b, "icon", icon)
  }

  /** `iconClass(x)`: sets `data.icon_class`. */
  function IconClass(b: Builder, iconClass: Value): Result<Builder> {
    SetData(b, "icon_class", iconClass)
  }

  /** `actionUrl(x)`: sets `data.action_url`. */
  function ActionUrl(b: Builder, url: Value): Result<Builder> {
    SetData(b, "action_url", url)
  }

  /** `icon(x)` fills `data.icon` and leaves the top-level `icon` as it was. */
  lemma IconWritesData(b: Builder, x: Value)
    requires DataOf(b).Obj?
    ensures Icon(b, x).Ok?
    ensures Member(DataOf(Icon(b, x).value), "icon") == x
    ensures Lookup(Icon(b, x).value.data, "icon") == Lookup(b.data, "icon")
  {
    assert "icon"[0] != "data"[0];
    SetDataReads(b, "icon", x, "icon");
  }

  /** `iconClass(x)` fills `data.icon_class` and leaves the top-level `icon_class` as it was. */
  lemma IconClassWritesData(b: Builder, x: Value)
    requires DataOf(b).Obj?
    ensures IconClass(b, x).Ok?
    ensures Member(DataOf(IconClass(b, x).value), "icon_class") == x
    ensures Lookup(IconClass(b, x).value.data, "icon_class") == Lookup(b.data, "icon_class")
  {
    assert |"icon_class"| != |"data"|;
    SetDataReads(b, "icon_class", x, "icon_class");
  }

  /** `actionUrl(x)` fills `data.action_url` and leaves the top-level `action_url` as it was. */
  lemma ActionUrlWritesData(b: Builder, x: Value)
    requires DataOf(b).Obj?
    ensures ActionUrl(b, x).Ok?
    ensures Member(DataOf(ActionUrl(b, x).value), "action_url") == x
    ensures Lookup(ActionUrl(b, x).value.data, "action_url") == Lookup(b.data, "action_url")
  {
    assert |"action_url"| != |"data"|;
    SetDataReads(b, "action_url", x, "action_url");
  }

  /** `typeof v === 'object'`, which holds for null too. */
  predicate TypeofObject(v: Value) {
    v.Null? || IsObject(v)
  }

  /**
    `data(key, value)`: an object (or null) key is shallow-merged into `data`,
    its keys winning; any other key with a defined value sets that one key
    (named by the key's string form); with an undefined value nothing changes.
   */
  function Data(b: Builder, key: Value, value: Value): (r: Result<Builder>)
    ensures TypeofObject(key) ==> r == Ok(Set(b, "data", Obj(Merge(Spread(DataOf(b)), Spread(key)))))
    ensures !TypeofObject(key) && value != Undefined ==> r == SetData(b, ToStr(key), value)
    ensures !TypeofObject(key) && value == Undefined ==> r == Ok(b)
  {
    if TypeofObject(key) then Ok(Set(b, "data", Obj(Merge(Spread(DataOf(b)), Spread(key)))))
    else if value != Undefined then SetData(b, ToStr(key), value)
    else Ok(b)
  }

  /** Merging an object into `data`: incoming keys win, other keys are kept, nothing else changes. */
  lemma DataMerge(b: Builder, key: Value, k: string)
    requires key.Obj? && DistinctKeys(key.props)
    ensures Data(b, key, Undefined).Ok?
    ensures var r := Data(b, key, Undefined).value;
            && DataOf(r).Obj?
            && Member(DataOf(r), k) == (if HasKey(key.props, k) then Lookup(key.props, k) else Member(Obj(Spread(DataOf(b))), k))
            && (forall k' :: k' != "data" ==> Lookup(r.data, k') == Lookup(b.data, k'))
  {
    LookupMerge(Spread(DataOf(b)), key.props, k);
  }

  /** `data(k, v)` sets exactly one key of an object `data`; `data(k)` changes nothing. */
  lemma DataSetsOneKey(b: Builder, k: string, v: Value, k': string)
    requires DataOf(b).Obj?
    ensures v != Undefined ==> Data(b, Str(k), v).Ok?
    ensures v != Undefined ==> Member(DataOf(Data(b, Str(k), v).value), k') == if k' == k then v else Member(DataOf(b), k')
    ensures v != Undefined && k' != "data" ==> Lookup(Data(b, Str(k), v).value.data, k') == Lookup(b.data, k')
    ensures Data(b, Str(k), Undefined) == Ok(b)
  {
    assert !TypeofObject(Str(k)) && ToStr(Str(k)) == k;
    if v != Undefined {
      assert Data(b, Str(k), v) == SetData(b, k, v);
      SetDataReads(b, k, v, k');
    }
  }

  // ----- presets -----

  /** The type and `data.icon` a preset sets. */
  function Preset(b: Builder, kind: string, icon: string): (r: Result<Builder>)
    ensures r.Ok? <==> IsObject(DataOf(b))
  {
    assert "type"[0] != "data"[0];
    Icon(Type(b, Str(kind)), Str(icon))
  }

  /** A preset sets the top-level type and `data.icon`, and nothing else outside `data`. */
  lemma PresetFields(b: Builder, kind: string, icon: string, k: string)
    requires DataOf(b).Obj?
    ensures Preset(b, kind, icon).Ok?
    ensures Lookup(Preset(b, kind, icon).value.data, "type") == Str(kind)
    ensures Member(DataOf(Preset(b, kind, icon).value), "icon") == Str(icon)
    ensures k != "type" && k != "data" ==> Lookup(Preset(b, kind, icon).value.data, k) == Lookup(b.data, k)
  {
    var t := Type(b, Str(kind));
    assert "type"[0] != "data"[0];
    SetDataReads(t, "icon", Str(icon), "type");
    SetDataReads(t, "icon", Str(icon), "icon");
    SetDataReads(t, "icon", Str(icon), k);
  }

  function Success(b: Builder): Result<Builder> {
    Preset(b, "success", "check")
  }

  function Warning(b: Builder): Result<Builder> {
    Preset(b, "warning", "alert")
  }

  function Danger(b: Builder): Result<Builder> {
    Preset(b, "danger", "alert")
  }

  /** `error()`: delegates to `danger()`. */
  function Error(b: Builder): Result<Builder> {
    Danger(b)
  }

  function Info(b: Builder): Result<Builder> {
    Preset(b, "info", "info")
  }

  /** What each preset sets: the type names the preset, and the icon is `check`, `alert` or `info`. */
  lemma PresetsSetTypeAndIcon(b: Builder)
    requires DataOf(b).Obj?
    ensures Success(b).Ok? && Lookup(Success(b).value.data, "type") == Str("success")
    ensures Member(DataOf(Success(b).value), "icon") == Str("check")
    ensures Warning(b).Ok? && Lookup(Warning(b).value.data, "type") == Str("warning")
    ensures Member(DataOf(Warning(b).value), "icon") == Str("alert")
    ensures Danger(b).Ok? && Lookup(Danger(b).value.data, "type") == Str("danger")
    ensures Member(DataOf(Danger(b).value), "icon") == Str("alert")
    ensures Info(b).Ok? && Lookup(Info(b).value.data, "type") == Str("info")
    ensures Member(DataOf(Info(b).value), "icon") == Str("info")
  {
    PresetFields(b, "success", "check", "");
    PresetFields(b, "warning", "alert", "");
    PresetFields(b, "danger", "alert", "");
    PresetFields(b, "info", "info", "");
  }

  /** An error notification is a danger notification: same type, same icon. */
  lemma ErrorIsDanger(b: Builder)
    requires DataOf(b).Obj?
    ensures Error(b).Ok? && Lookup(Error(b).value.data, "type") == Str("danger")
    ensures Member(DataOf(Error(b).value), "icon") == Str("alert")
  {
    PresetFields(b, "danger", "alert", "");
  }

  /** Every preset's icon is one the renderer draws as its own svg. */
  lemma PresetIconsAreKnown()
    ensures "check" in NotificationRenderer.IconNames && "alert" in NotificationRenderer.IconNames
    ensures "info" in NotificationRenderer.IconNames
  {
  }

  /** A preset icon is drawn as the preset's own svg unless the data names an icon class. */
  lemma PresetIconRenders(b: Builder, kind: string, icon: string)
    requires DataOf(b).Obj? && !Truthy(Member(DataOf(b), "icon_class"))
    requires icon in NotificationRenderer.IconNames
    ensures Preset(b, kind, icon).Ok?
    ensures NotificationRenderer.GetIcon(Preset(b, kind, icon).value.data) == NotificationRenderer.Svg(icon)
  {
    var t := Type(b, Str(kind));
    assert "type"[0] != "data"[0];
    assert DataOf(t) == DataOf(b);
    SetDataReads(t, "icon", Str(icon), "icon_class");
    SetDataReads(t, "icon", Str(icon), "icon");
    assert |"icon_class"| != |"icon"|;
    NotificationRenderer.KnownIconRenders(Preset(b, kind, icon).value.data, icon);
  }

  /** The presets render as the check, the alert and the info svg. */
  lemma PresetsRenderTheirIcons(b: Builder)
    requires DataOf(b).Obj? && !Truthy(Member(DataOf(b), "icon_class"))
    ensures NotificationRenderer.GetIcon(Success(b).value.data) == NotificationRenderer.Svg("check")
    ensures NotificationRenderer.GetIcon(Warning(b).value.data) == NotificationRenderer.Svg("alert")
    ensures NotificationRenderer.GetIcon(Error(b).value.data) == NotificationRenderer.Svg("alert")
    ensures NotificationRenderer.GetIcon(Info(b).value.data) == NotificationRenderer.Svg("info")
  {
    PresetIconRenders(b, "success", "check");
    PresetIconRenders(b, "warning", "alert");
    PresetIconRenders(b, "danger", "alert");
    PresetIconRenders(b, "info", "info");
  }

  /** The built link action's data is JSON-plain, so `toObject()` gives it back as it is. */
  lemma BuiltLinkPlain(name: string, url: string, color: string)
    ensures var a := ActionBuilder.Color(ActionBuilder.Url(ActionBuilder.Make(Str(name)), Str(url), Undefined), Str(color));
            ActionBuilder.ToObject(a) == Obj(a.data)
  {
    var m := ActionBuilder.Make(Str(name));
    ActionBuilder.MakeIsPlain(name);
    AssignKeepsPlain(m.data, "url", Str(url));
    var u1 := ActionBuilder.Set(m, "url", Str(url));
    AssignKeepsPlain(u1.data, "openInNewTab", Bool(false));
    var u := ActionBuilder.Url(m, Str(url), Undefined);
    assert u == ActionBuilder.Set(u1, "openInNewTab", Bool(false));
    AssignKeepsPlain(u.data, "color", Str(color));
  }

  /** Setting a URL and then a color changes no other field of an action. */
  lemma LinkKeepsOtherFields(a0: ActionBuilder.Action, url: string, color: string, k: string)
    ensures var a := ActionBuilder.Color(ActionBuilder.Url(a0, Str(url), Undefined), Str(color));
            && Lookup(a.data, "url") == Str(url) && Lookup(a.data, "color") == Str(color)
            && (k != "url" && k != "openInNewTab" && k != "color" ==> Lookup(a.data, k) == Lookup(a0.data, k))
  {
    var u := ActionBuilder.Url(a0, Str(url), Undefined);
    assert "url"[0] != "color"[0];
    assert Lookup(u.data, "url") == Str(url);
  }

  /**
    An action built with a name, a URL and a color, converted with
    `toObject()`, is drawn by the built-in action template as a link under
    that name and URL, with the color's button class, enabled, captioned
    with the name.
   */
  lemma BuiltActionRenders(name: string, url: string, color: string)
    requires name != "" && url != "" && color != ""
    ensures var a := ActionBuilder.Color(ActionBuilder.Url(ActionBuilder.Make(Str(name)), Str(url), Undefined), Str(color));
            NotificationRenderer.RenderAction(ActionBuilder.ToObject(a))
            == Ok(NotificationRenderer.ActionButton("btn-" + color, "link", Str(name), Str(url), false, Null, Str(name)))
  {
    var m := ActionBuilder.Make(Str(name));
    var a := ActionBuilder.Color(ActionBuilder.Url(m, Str(url), Undefined), Str(color));
    BuiltLinkPlain(name, url, color);
    assert "name"[0] != "url"[0] && "name"[0] != "openInNewTab"[0] && "name"[0] != "color"[0];
    assert "label"[0] != "url"[0] && "label"[0] != "openInNewTab"[0] && "label"[0] != "color"[0];
    assert "isDisabled"[0] != "url"[0] && "isDisabled"[0] != "openInNewTab"[0] && "isDisabled"[0] != "color"[0];
    assert "icon"[0] != "url"[0] && "icon"[0] != "openInNewTab"[0] && "icon"[0] != "color"[0];
    LinkKeepsOtherFields(m, url, color, "name");
    LinkKeepsOtherFields(m, url, color, "label");
    LinkKeepsOtherFields(m, url, color, "isDisabled");
    LinkKeepsOtherFields(m, url, color, "icon");
    NotificationRenderer.LinkActionRenders(Obj(a.data), name, url, color);
  }

  /** A freshly made action has no URL and no color: a plain custom button under its name. */
  lemma MadeActionRenders(name: string)
    requires name != ""
    ensures NotificationRenderer.RenderAction(ActionBuilder.ToObject(ActionBuilder.Make(Str(name))))
            == Ok(NotificationRenderer.ActionButton("", "custom", Str(name), Null, false, Null, Str(name)))
  {
    var m := ActionBuilder.Make(Str(name));
    ActionBuilder.MakeIsPlain(name);
    assert "type" !in ActionBuilder.Fields;
    LookupAbsent(m.data, "type");
  }

  // ----- conversion -----

  /** `action && typeof action.toObject === 'function' ? action.toObject() : action`. */
  function ConvertAction(action: Value): (r: Value)
    ensures action.ActionInst? ==> r == ActionBuilder.ToObject(ActionBuilder.Action(action.fields))
    ensures !action.ActionInst? ==> r == action
    ensures JsonPlain(action) ==> r == action
  {
    if action.ActionInst? then ActionBuilder.ToObject(ActionBuilder.Action(action.fields)) else action
  }

  /** Converts the builder-valued entries of an `actions` array, leaving the rest alone. */
  function ConvertActions(o: Value): (r: Value)
    ensures o.Obj? && Lookup(o.props, "actions").Arr? ==>
              var es := Lookup(o.props, "actions").elems;
              && r.Obj?
              && Lookup(r.props, "actions") == Arr(seq(|es|, i requires 0 <= i < |es| => ConvertAction(es[i])))
              && forall k :: k != "actions" ==> Lookup(r.props, k) == Lookup(o.props, k)
    ensures !(o.Obj? && Lookup(o.props, "actions").Arr?) ==> r == o
  {
    if o.Obj? && Lookup(o.props, "actions").Arr? then
      var es := Lookup(o.props, "actions").elems;
      LookupAssignAll(o.props, "actions", Arr(seq(|es|, i requires 0 <= i < |es| => ConvertAction(es[i]))));
      Obj(Assign(o.props, "actions", Arr(seq(|es|, i requires 0 <= i < |es| => ConvertAction(es[i])))))
    else o
  }

  /**
    `toObject()` as written: the JSON round trip comes first, so a builder
    in `actions` has already become `{_data: {...}}` and the conversion
    that follows finds nothing to convert.
   */
  function ToObjectAsWritten(b: Builder): (r: Value)
    ensures r.Obj? && JsonPlain(r)
  {
    JsonCloneIsPlain(Obj(b.data));
    var c := JsonClone(Obj(b.data));
    ConvertedPlainIsPlain(c);
    ConvertActions(c)
  }

  lemma ConvertedPlainIsPlain(c: Value)
    requires c.Obj? && JsonPlain(c)
    ensures ConvertActions(c) == c
  {
    if Lookup(c.props, "actions").Arr? {
      PlainLookup(c.props, "actions");
      var es := Lookup(c.props, "actions").elems;
      assert seq(|es|, i requires 0 <= i < |es| => ConvertAction(es[i])) == es;
      AssignSame(c.props, "actions", Arr(es));
    }
  }

  lemma {:induction false} PlainLookup(ps: seq<Prop>, k: string)
    requires forall i :: 0 <= i < |ps| ==> JsonPlain(ps[i].val)
    requires Lookup(ps, k) != Undefined
    ensures JsonPlain(Lookup(ps, k)) && HasKey(ps, k)
  {
    KeysCons(ps);
    if ps[0].key != k {
      PlainLookup(ps[1..], k);
    }
  }

  /**
    `toObject()` as intended: builder-valued actions go through their own
    `toObject`, then the JSON round trip makes an independent plain copy.
   */
  function ToObject(b: Builder): (r: Value)
    ensures r.Obj? && JsonPlain(r)
    ensures JsonPlain(Obj(b.data)) ==> r == Obj(b.data)
  {
    var c := ConvertActions(Obj(b.data));
    JsonCloneIsPlain(c);
    if JsonPlain(Obj(b.data)) then
      ConvertedPlainIsPlain(Obj(b.data));
      JsonCloneOfPlain(Obj(b.data));
      JsonClone(c)
    else
      JsonClone(c)
  }

  /** As written, a builder in `actions` comes out wrapped in `_data`, not as the action's own object. */
  lemma ToObjectAsWrittenWrapsBuilders(b: Builder, action: ActionBuilder.Action)
    requires Lookup(b.data, "actions") == Arr([ActionBuilder.AsValue(action)]) && JsonPlain(Obj(action.data))
    ensures Lookup(ToObjectAsWritten(b).props, "actions") == Arr([Obj([Prop("_data", Obj(action.data))])])
    ensures Lookup(ToObjectAsWritten(b).props, "actions") != Arr([ActionBuilder.ToObject(action)])
  {
    LookupJsonClone(b.data, "actions");
    JsonCloneIsPlain(Obj(b.data));
    JsonCloneOfPlain(Obj(action.data));
    ConvertedPlainIsPlain(JsonClone(Obj(b.data)));
    assert JsonClone(ActionBuilder.AsValue(action)) == Obj([Prop("_data", JsonClone(Obj(action.data)))]);
  }

  /** As intended, the same builder comes out as its own `toObject()`. */
  lemma ToObjectConvertsBuilders(b: Builder, action: ActionBuilder.Action)
    requires Lookup(b.data, "actions") == Arr([ActionBuilder.AsValue(action)])
    ensures Lookup(ToObject(b).props, "actions") == Arr([ActionBuilder.ToObject(action)])
  {
    var c := ConvertActions(Obj(b.data));
    var conv := Arr([ActionBuilder.ToObject(action)]);
    assert Lookup(c.props, "actions") == conv;
    LookupJsonClone(c.props, "actions");
    JsonCloneOfPlain(conv);
  }

  /**
    What the wrapping costs: the renderer finds no name on the wrapped
    object and labels the button `action`, where the builder's own object
    keeps its name.
   */
  lemma WrappedActionLosesName(name: string)
    requires name != ""
    ensures var a := ActionBuilder.Make(Str(name));
            && NotificationRenderer.RenderAction(Obj([Prop("_data", Obj(a.data))])).value.name == Str("action")
            && NotificationRenderer.RenderAction(ActionBuilder.ToObject(a)).value.name == Str(name)
  {
    var ps := [Prop("_data", Obj(ActionBuilder.Make(Str(name)).data))];
    assert |"_data"| == 5;
    assert ps[1..] == [];
    assert Lookup(ps, "name") == Undefined && Lookup(ps, "url") == Undefined;
    ActionBuilder.MakeIsPlain(name);
  }

  /**
    `fromObject(obj)`: `new CakeNotification(obj.id)` reads `obj.id`, which
    throws on null and undefined; the builder's `_data` then becomes `{...obj}`.
   */
  function FromObject(obj: Value): (r: Result<Builder>)
    ensures r.Thrown? <==> Nullish(obj)
    ensures r.Thrown? ==> r.error == TypeError
    ensures obj.Obj? ==> r == Ok(Builder(obj.props))
  {
    if Nullish(obj) then Thrown(TypeError) else Ok(Builder(Spread(obj)))
  }

  /** `fromObject(obj).toObject()` gives back `obj` for a JSON-representable record. */
  lemma FromObjectToObject(obj: Value)
    requires obj.Obj? && JsonPlain(obj)
    ensures FromObject(obj).Ok? && ToObject(FromObject(obj).value) == obj
    ensures ToObjectAsWritten(FromObject(obj).value) == obj
  {
    JsonCloneOfPlain(obj);
    ConvertedPlainIsPlain(obj);
  }

  /** A builder whose data is JSON-representable survives `fromObject(b.toObject())`. */
  lemma ToObjectFromObject(b: Builder)
    requires JsonPlain(Obj(b.data))
    ensures FromObject(ToObject(b)) == Ok(b)
  {
  }
}
