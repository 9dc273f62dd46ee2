/**
  The fluent builder for notification action buttons. A builder instance is
  its `_data` object; every setter returns the same builder with one or two
  fields overwritten, and `toObject`/`fromObject` convert to and from plain
  objects through a JSON round trip and an object spread.
 */
module ActionBuilder {
  import opened JsValue
  import opened JsString

  /** A builder instance; `data` is its `_data` object. */
  datatype Action = Action(data: Object)

  /** The keys of a fresh builder's `_data`, in creation order. */
  const Fields: seq<string> :=
    ["name", "label", "color", "icon", "url", "openInNewTab", "event", "eventData", "shouldClose", "isDisabled"]

  /** The builder as a value stored inside a notification's `actions`. */
  function AsValue(a: Action): Value {
    ActionInst(a.data)
  }

  /** A parameter with a default: the default applies when the argument is undefined. */
  function DefaultArg(arg: Value, default: Value): (r: Value)
    ensures arg != Undefined ==> r == arg
    ensures arg == Undefined ==> r == default
  {
    if arg == Undefined then default else arg
  }

  /** `r` differs from `a` at most in key `k`, which now holds `v`. */
  ghost predicate OnlyChanged(a: Action, r: Action, k: string, v: Value) {
    && Lookup(r.data, k) == v
    && (forall k' :: k' != k ==> Lookup(r.data, k') == Lookup(a.data, k'))
  }

  /** The `_data` of a fresh builder. */
  function FreshData(name: Value): (o: Object)
    ensures Keys(o) == Fields
  {
    [Prop("name", name), Prop("label", name), Prop("color", Null), Prop("icon", Null),
     Prop("url", Null), Prop("openInNewTab", Bool(false)), Prop("event", Null),
     Prop("eventData", Null), Prop("shouldClose", Bool(false)), Prop("isDisabled", Bool(false))]
  }

  // Unfolding helpers, not properties: each reads two fields of the literal `FreshData` back,
  // so that `Make` can state its fields without one large proof.

  lemma FreshNaming(name: Value)
    ensures Lookup(FreshData(name), "name") == name && Lookup(FreshData(name), "label") == name
  {
    LookupFirst(FreshData(name), 0, "name");
    LookupFirst(FreshData(name), 1, "label");
  }

  lemma FreshLooks(name: Value)
    ensures Lookup(FreshData(name), "color") == Null && Lookup(FreshData(name), "icon") == Null
  {
    LookupFirst(FreshData(name), 2, "color");
    LookupFirst(FreshData(name), 3, "icon");
  }

  lemma FreshLink(name: Value)
    ensures Lookup(FreshData(name), "url") == Null
    ensures Lookup(FreshData(name), "openInNewTab") == Bool(false)
  {
    LookupFirst(FreshData(name), 4, "url");
    LookupFirst(FreshData(name), 5, "openInNewTab");
  }

  lemma FreshEvent(name: Value)
    ensures Lookup(FreshData(name), "event") == Null && Lookup(FreshData(name), "eventData") == Null
  {
    LookupFirst(FreshData(name), 6, "event");
    LookupFirst(FreshData(name), 7, "eventData");
  }

  lemma FreshFlags(name: Value)
    ensures Lookup(FreshData(name), "shouldClose") == Bool(false)
    ensures Lookup(FreshData(name), "isDisabled") == Bool(false)
  {
    LookupFirst(FreshData(name), 8, "shouldClose");
    LookupFirst(FreshData(name), 9, "isDisabled");
  }

  /** `new CakeNotificationAction(name)` (and `make(name)`). */
  function Make(name: Value): (a: Action)
    ensures Keys(a.data) == Fields
    ensures Lookup(a.data, "name") == name && Lookup(a.data, "label") == name
    ensures Lookup(a.data, "color") == Null && Lookup(a.data, "icon") == Null
    ensures Lookup(a.data, "url") == Null && Lookup(a.data, "event") == Null
    ensures Lookup(a.data, "eventData") == Null
    ensures Lookup(a.data, "openInNewTab") == Bool(false)
    ensures Lookup(a.data, "shouldClose") == Bool(false)
    ensures Lookup(a.data, "isDisabled") == Bool(false)
  {
    FreshNaming(name);
    FreshLooks(name);
    FreshLink(name);
    FreshEvent(name);
    FreshFlags(name);
    Action(FreshData(name))
  }

  /** `this._data[k] = v`, the write every setter performs. */
  function Set(a: Action, k: string, v: Value): (r: Action)
    ensures OnlyChanged(a, r, k, v)
    ensures HasKey(a.data, k) ==> Keys(r.data) == Keys(a.data)
  {
    LookupAssignAll(a.data, k, v);
    Action(Assign(a.data, k, v))
  }

  function Name(a: Action, name: Value): (r: Action)
    ensures OnlyChanged(a, r, "name", name)
  {
    Set(a, "name", name)
  }

  function Label(a: Action, text: Value): (r: Action)
    ensures OnlyChanged(a, r, "label", text)
  {
    Set(a, "label", text)
  }

  function Color(a: Action, color: Value): (r: Action)
    ensures OnlyChanged(a, r, "color", color)
  {
    Set(a, "color", color)
  }

  function Icon(a: Action, icon: Value): (r: Action)
    ensures OnlyChanged(a, r, "icon", icon)
  {
    Set(a, "icon", icon)
  }

  /** `url(url, openInNewTab = false)`: also resets the new-tab flag unless one is given. */
  function Url(a: Action, url: Value, openInNewTab: Value): (r: Action)
    ensures Lookup(r.data, "url") == url
    ensures openInNewTab == Undefined ==> Lookup(r.data, "openInNewTab") == Bool(false)
    ensures openInNewTab != Undefined ==> Lookup(r.data, "openInNewTab") == openInNewTab
    ensures forall k :: k != "url" && k != "openInNewTab" ==> Lookup(r.data, k) == Lookup(a.data, k)
  {
    Set(Set(a, "url", url), "openInNewTab", DefaultArg(openInNewTab, Bool(false)))
  }

  /** `openUrlInNewTab(condition = true)`. */
  function OpenUrlInNewTab(a: Action, condition: Value): (r: Action)
    ensures condition == Undefined ==> OnlyChanged(a, r, "openInNewTab", Bool(true))
    ensures condition != Undefined ==> OnlyChanged(a, r, "openInNewTab", condition)
  {
    Set(a, "openInNewTab", DefaultArg(condition, Bool(true)))
  }

  /** `dispatch(event, data = null)`. */
  function Dispatch(a: Action, event: Value, data: Value): (r: Action)
    ensures Lookup(r.data, "event") == event
    ensures data == Undefined ==> Lookup(r.data, "eventData") == Null
    ensures data != Undefined ==> Lookup(r.data, "eventData") == data
    ensures forall k :: k != "event" && k != "eventData" ==> Lookup(r.data, k) == Lookup(a.data, k)
  {
    Set(Set(a, "event", event), "eventData", DefaultArg(data, Null))
  }

  /** `close(condition = true)`. */
  function Close(a: Action, condition: Value): (r: Action)
    ensures condition == Undefined ==> OnlyChanged(a, r, "shouldClose", Bool(true))
    ensures condition != Undefined ==> OnlyChanged(a, r, "shouldClose", condition)
  {
    Set(a, "shouldClose", DefaultArg(condition, Bool(true)))
  }

  /** `disabled(condition = true)`. */
  function Disabled(a: Action, condition: Value): (r: Action)
    ensures condition == Undefined ==> OnlyChanged(a, r, "isDisabled", Bool(true))
    ensures condition != Undefined ==> OnlyChanged(a, r, "isDisabled", condition)
  {
    Set(a, "isDisabled", DefaultArg(condition, Bool(true)))
  }

  function Button(a: Action): (r: Action)
    ensures OnlyChanged(a, r, "color", Str("primary"))
  {
    Color(a, Str("primary"))
  }

  function Link(a: Action): (r: Action)
    ensures r == a
  {
    a
  }

  function Danger(a: Action): (r: Action)
    ensures OnlyChanged(a, r, "color", Str("danger"))
  {
    Color(a, Str("danger"))
  }

  function Success(a: Action): (r: Action)
    ensures OnlyChanged(a, r, "color", Str("success"))
  {
    Color(a, Str("success"))
  }

  function Warning(a: Action): (r: Action)
    ensures OnlyChanged(a, r, "color", Str("warning"))
  {
    Color(a, Str("warning"))
  }

  function Info(a: Action): (r: Action)
    ensures OnlyChanged(a, r, "color", Str("info"))
  {
    Color(a, Str("info"))
  }

  /**
    `toObject()`: `JSON.parse(JSON.stringify(this._data))`, a plain object
    that equals `_data` whenever `_data` is itself JSON-representable.
   */
  function ToObject(a: Action): (r: Value)
    ensures r.Obj? && JsonPlain(r)
    ensures JsonPlain(Obj(a.data)) ==> r == Obj(a.data)
  {
    JsonCloneIsPlain(Obj(a.data));
    if JsonPlain(Obj(a.data)) then
      JsonCloneOfPlain(Obj(a.data));
      JsonClone(Obj(a.data))
    else
      JsonClone(Obj(a.data))
  }

  /**
    `fromObject(obj)`: reading `obj.name` throws on null and undefined;
    otherwise the builder's `_data` becomes `{...obj}`.
   */
  function FromObject(obj: Value): (r: Result<Action>)
    ensures r.Thrown? <==> obj == Undefined || obj == Null
    ensures r.Thrown? ==> r.error == TypeError
    ensures obj.Obj? ==> r == Ok(Action(obj.props))
  {
    if obj == Undefined || obj == Null then Thrown(TypeError)
    else Ok(Action(Spread(obj)))
  }

  /** `fromObject(obj).toObject()` gives back `obj` for a JSON-representable object. */
  lemma FromObjectToObject(obj: Value)
    requires obj.Obj? && JsonPlain(obj)
    ensures FromObject(obj).Ok? && ToObject(FromObject(obj).value) == obj
  {
  }

  /** A builder whose data is JSON-representable survives `fromObject(a.toObject())`. */
  lemma ToObjectFromObject(a: Action)
    requires JsonPlain(Obj(a.data))
    ensures FromObject(ToObject(a)) == Ok(a)
  {
  }

  /** A builder made from a string name and configured with strings and booleans is JSON-representable. */
  lemma {:induction false} MakeIsPlain(name: string)
    ensures JsonPlain(Obj(Make(Str(name)).data))
    ensures ToObject(Make(Str(name))) == Obj(Make(Str(name)).data)
  {
    var o := FreshData(Str(name));
    assert forall i :: 0 <= i < |o| ==> JsonPlain(o[i].val);
  }
}
