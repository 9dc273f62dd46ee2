/**
  The notification renderer's decisions: which template renders what, which
  parts a list item has, and the text it derives for titles, messages,
  icons, relative times and action buttons.

  HTML is not produced: each rendering is the structured choice it is made
  from (`Piece`, `Item`, `ActionButton`), with values still unescaped. Date
  parsing, the clock and locale date formatting are parameters.
 */
module NotificationRenderer {
  import opened JsValue
  import opened JsString
  import opened NotificationList

  // ----- template registry -----

  /** A registered template function, identified by reference. */
  type TemplateFn = nat

  /** The names that can be overridden. */
  const TemplateNames: seq<string> :=
    ["notification", "notificationContent", "notificationIcon", "notificationActions", "notificationAction",
     "loadMoreButton", "emptyState", "errorState", "loadingState"]

  /**
    The renderer: its template slots (`None` for a null or other falsy
    entry) and the `markReadOnClick` option.
   */
  datatype Renderer = Renderer(templates: map<string, Option<TemplateFn>>, markReadOnClick: bool)

  /**
    `new CakeNotificationRenderer(options)`: every slot empty, and the option
    spread over the default `markReadOnClick: true`. `None` is an options
    object without the key; a key that is present replaces the default even
    when its value is `undefined`.
   */
  function Create(markReadOnClick: Option<Value>): (r: Renderer)
    ensures r.templates.Keys == set n | n in TemplateNames
    ensures forall n :: n in r.templates ==> r.templates[n].None?
    ensures markReadOnClick.None? ==> r.markReadOnClick
    ensures markReadOnClick.Some? ==> r.markReadOnClick == Truthy(markReadOnClick.value)
  {
    var option := match markReadOnClick case None => Bool(true) case Some(v) => v;
    Renderer(map n | n in TemplateNames :: None, Truthy(option))
  }

  /** `registerTemplate(name, fn)`: only the known slots can be set; other names are ignored. */
  function RegisterTemplate(r: Renderer, name: string, fn: Option<TemplateFn>): (r': Renderer)
    ensures name in r.templates ==> r'.templates == r.templates[name := fn]
    ensures name !in r.templates ==> r' == r
    ensures r'.templates.Keys == r.templates.Keys && r'.markReadOnClick == r.markReadOnClick
  {
    if name in r.templates then r.(templates := r.templates[name := fn]) else r
  }

  /** `registerTemplates(obj)`: each entry in key order. */
  function RegisterTemplates(r: Renderer, entries: seq<(string, Option<TemplateFn>)>): (r': Renderer)
    ensures r'.templates.Keys == r.templates.Keys && r'.markReadOnClick == r.markReadOnClick
    decreases |entries|
  {
    if |entries| == 0 then r
    else RegisterTemplates(RegisterTemplate(r, entries[0].0, entries[0].1), entries[1..])
  }

  /** The template that renders a part: the registered one, or the built-in default. */
  datatype Chosen = Default | Custom(fn: TemplateFn)

  /** `getTemplate(name, defaultFn)`: `templates[name] || defaultFn`. */
  function GetTemplate(r: Renderer, name: string): (c: Chosen)
    ensures c.Custom? <==> name in r.templates && r.templates[name].Some?
    ensures c.Custom? ==> c.fn == r.templates[name].value
  {
    if name in r.templates && r.templates[name].Some? then Custom(r.templates[name].value) else Default
  }

  /** Registering a known slot is what the next lookup returns; an unknown name changes no lookup. */
  lemma GetAfterRegister(r: Renderer, name: string, fn: TemplateFn, other: string)
    ensures name in r.templates ==> GetTemplate(RegisterTemplate(r, name, Some(fn)), name) == Custom(fn)
    ensures name in r.templates ==> GetTemplate(RegisterTemplate(r, name, None), name) == Default
    ensures other != name ==> GetTemplate(RegisterTemplate(r, name, Some(fn)), other) == GetTemplate(r, other)
    ensures name !in r.templates ==> GetTemplate(RegisterTemplate(r, name, Some(fn)), other) == GetTemplate(r, other)
  {
  }

  /** A fresh renderer overrides nothing, and only the nine names can ever be overridden. */
  lemma OnlyKnownNamesOverride(markReadOnClick: Option<Value>, entries: seq<(string, Option<TemplateFn>)>, name: string)
    requires name !in TemplateNames
    ensures GetTemplate(Create(markReadOnClick), name) == Default
    ensures GetTemplate(RegisterTemplates(Create(markReadOnClick), entries), name) == Default
  {
  }

  /** A bulk registration that does not mention a slot leaves it as it was. */
  lemma {:induction false} RegisterTemplatesKeepsOthers(r: Renderer, entries: seq<(string, Option<TemplateFn>)>, name: string)
    requires forall i :: 0 <= i < |entries| ==> entries[i].0 != name
    ensures GetTemplate(RegisterTemplates(r, entries), name) == GetTemplate(r, name)
    decreases |entries|
  {
    if |entries| > 0 {
      RegisterTemplatesKeepsOthers(RegisterTemplate(r, entries[0].0, entries[0].1), entries[1..], name);
    }
  }

  // ----- derived text -----

  /** A class name turned into words: last `\`-segment, a space before each capital, trimmed. */
  function ClassTitle(kind: string): string
  {
    Trim(SpaceBeforeCapitals(LastSegment(kind, '\\')))
  }

  /** The words keep no namespace separator and carry no surrounding white space. */
  lemma ClassTitleClean(kind: string)
    ensures '\\' !in ClassTitle(kind)
    ensures var r := ClassTitle(kind); |r| > 0 ==> !IsJsSpace(r[0]) && !IsJsSpace(r[|r| - 1])
  {
    var seg := LastSegment(kind, '\\');
    SpacingAddsOnlySpaces(seg);
    TrimKeepsChars(SpaceBeforeCapitals(seg));
  }

  lemma TrimKeepsChars(s: string)
    ensures forall c :: c in Trim(s) ==> c in s
  {
    var t := TrimStart(s);
    var r := TrimEnd(t);
    assert Trim(s) == r;
    var off := |s| - |t|;
    assert forall k :: 0 <= k < |r| ==> r[k] == s[off + k];
    forall c | c in r
      ensures c in s
    {
      var k :| 0 <= k < |r| && r[k] == c;
      assert s[off + k] == c;
    }
  }

  lemma {:induction false} SpacingAddsOnlySpaces(s: string)
    ensures forall c :: c in SpaceBeforeCapitals(s) ==> c == ' ' || c in s
  {
    if |s| > 0 {
      SpacingAddsOnlySpaces(s[1..]);
      var h := if IsUpper(s[0]) then [' ', s[0]] else [s[0]];
      assert SpaceBeforeCapitals(s) == h + SpaceBeforeCapitals(s[1..]);
      assert forall c :: c in s[1..] ==> c in s;
    }
  }

  /** The type fallback of the title: `(type || '')` split into words; a truthy non-string has no `split`. */
  function TypeTitle(kind: Value): (r: Result<Value>)
    ensures !Truthy(kind) ==> r == Ok(Str(""))
    ensures kind.Str? ==> r == Ok(Str(ClassTitle(kind.s)))
    ensures r.Thrown? <==> Truthy(kind) && !kind.Str?
  {
    var t := Or(kind, Str(""));
    if t.Str? then Ok(Str(ClassTitle(t.s))) else Thrown(TypeError)
  }

  /** `getNotificationTitle(n)`: the data's title, else the record's title, else the type's words. */
  function Title(n: Record): (r: Result<Value>)
    ensures Truthy(Member(Lookup(n, "data"), "title")) ==> r == Ok(Member(Lookup(n, "data"), "title"))
    ensures !Truthy(Member(Lookup(n, "data"), "title")) && Truthy(Lookup(n, "title")) ==> r == Ok(Lookup(n, "title"))
    ensures !Truthy(Member(Lookup(n, "data"), "title")) && !Truthy(Lookup(n, "title")) ==> r == TypeTitle(Lookup(n, "type"))
  {
    var d := Lookup(n, "data");
    if Truthy(d) && Truthy(Member(d, "title")) then Ok(Member(d, "title"))
    else if Truthy(Lookup(n, "title")) then Ok(Lookup(n, "title"))
    else TypeTitle(Lookup(n, "type"))
  }

  lemma {:induction false} LastSegmentAfterSeparator(p: string, s: string, sep: char)
    requires sep !in s
    ensures LastSegment(p + [sep] + s, sep) == s
    decreases |s|
  {
    if |s| == 0 {
      assert p + [sep] + s == p + [sep];
    } else {
      var w := p + [sep] + s;
      assert w[..|w| - 1] == p + [sep] + s[..|s| - 1];
      LastSegmentAfterSeparator(p, s[..|s| - 1], sep);
    }
  }

  lemma {:induction false} SpacingConcat(a: string, b: string)
    ensures SpaceBeforeCapitals(a + b) == SpaceBeforeCapitals(a) + SpaceBeforeCapitals(b)
  {
    if |a| > 0 {
      assert (a + b)[1..] == a[1..] + b;
      SpacingConcat(a[1..], b);
    } else {
      assert a + b == b;
    }
  }

  /** The example the type fallback is written for: a fully qualified notification class. */
  lemma ClassTitleExample()
    ensures ClassTitle("App\\Notification\\PostPublished") == "Post Published"
  {
    assert "App\\Notification\\PostPublished" == "App\\Notification" + ['\\'] + "PostPublished";
    LastSegmentAfterSeparator("App\\Notification", "PostPublished", '\\');
    SpacedExample();
    TrimExample();
  }

  lemma SpacedExample()
    ensures SpaceBeforeCapitals("PostPublished") == " Post Published"
  {
    SpacedTwoWords('P', "ost", 'P', "ublished");
    assert "PostPublished" == ['P'] + "ost" + (['P'] + "ublished");
    assert " Post Published" == [' ', 'P'] + "ost" + ([' ', 'P'] + "ublished");
  }

  lemma SpacedTwoWords(c: char, r: string, d: char, t: string)
    requires IsUpper(c) && forall i :: 0 <= i < |r| ==> !IsUpper(r[i])
    requires IsUpper(d) && forall i :: 0 <= i < |t| ==> !IsUpper(t[i])
    ensures SpaceBeforeCapitals([c] + r + ([d] + t)) == [' ', c] + r + ([' ', d] + t)
  {
    SpacingConcat([c] + r, [d] + t);
    SpacedWord(c, r);
    SpacedWord(d, t);
  }

  /** A capitalised word gets exactly one space, in front. */
  lemma {:induction false} SpacedWord(c: char, rest: string)
    requires IsUpper(c) && forall i :: 0 <= i < |rest| ==> !IsUpper(rest[i])
    ensures SpaceBeforeCapitals([c] + rest) == [' ', c] + rest
  {
    assert ([c] + rest)[1..] == rest;
    SpacingLower(rest);
  }

  lemma {:induction false} SpacingLower(s: string)
    requires forall i :: 0 <= i < |s| ==> !IsUpper(s[i])
    ensures SpaceBeforeCapitals(s) == s
  {
    if |s| > 0 {
      SpacingLower(s[1..]);
      assert s == [s[0]] + s[1..];
    }
  }

  lemma TrimExample()
    ensures Trim(" Post Published") == "Post Published"
  {
    assert " Post Published" == [' '] + "Post Published";
    assert "Post Published"[0] == 'P' && "Post Published"[|"Post Published"| - 1] == 'd';
    TrimOneSpace("Post Published");
  }

  /** One leading space before an unpadded text is all that trimming removes. */
  lemma TrimOneSpace(w: string)
    requires |w| > 0 && !IsJsSpace(w[0]) && !IsJsSpace(w[|w| - 1])
    ensures Trim([' '] + w) == w
  {
    assert ([' '] + w)[1..] == w;
    assert TrimStart([' '] + w) == w;
    TrimOfUnpadded(w);
  }

  const DefaultMessage := "You have a new notification"

  /** `getNotificationMessage(n)`: the data's message, the record's message, the data's title, else a fixed text. */
  function Message(n: Record): (r: Value)
    ensures Truthy(r)
    ensures Truthy(Member(Lookup(n, "data"), "message")) ==> r == Member(Lookup(n, "data"), "message")
    ensures !Truthy(Member(Lookup(n, "data"), "message")) && Truthy(Lookup(n, "message")) ==> r == Lookup(n, "message")
    ensures !Truthy(Member(Lookup(n, "data"), "message")) && !Truthy(Lookup(n, "message")) ==>
              r == (if Truthy(Member(Lookup(n, "data"), "title")) then Member(Lookup(n, "data"), "title") else Str(DefaultMessage))
  {
    var d := Lookup(n, "data");
    if Truthy(d) && Truthy(Member(d, "message")) then Member(d, "message")
    else if Truthy(Lookup(n, "message")) then Lookup(n, "message")
    else if Truthy(d) && Truthy(Member(d, "title")) then Member(d, "title")
    else Str(DefaultMessage)
  }

  /** The first truthy value of a `||` chain, or the fallback at its end. */
  function FirstTruthy(vs: seq<Value>, fallback: Value): Value
    decreases |vs|
  {
    if |vs| == 0 then fallback else Or(vs[0], FirstTruthy(vs[1..], fallback))
  }

  /** The first truthy value is one of the chain's own, and every earlier one is falsy. */
  lemma {:induction false} FirstTruthyIsFirst(vs: seq<Value>, fallback: Value)
    ensures var r := FirstTruthy(vs, fallback);
            && (Truthy(r) && !Truthy(fallback) ==> exists i :: 0 <= i < |vs| && r == vs[i] && forall j :: 0 <= j < i ==> !Truthy(vs[j]))
            && ((forall j :: 0 <= j < |vs| ==> !Truthy(vs[j])) ==> r == fallback)
    decreases |vs|
  {
    if |vs| > 0 {
      FirstTruthyIsFirst(vs[1..], fallback);
      var r := FirstTruthy(vs, fallback);
      if Truthy(r) && !Truthy(fallback) && !Truthy(vs[0]) {
        var i :| 0 <= i < |vs[1..]| && r == vs[1..][i] && forall j :: 0 <= j < i ==> !Truthy(vs[1..][j]);
        assert r == vs[i + 1];
        forall j | 0 <= j < i + 1 ensures !Truthy(vs[j]) {
          if j > 0 { assert vs[j] == vs[1..][j - 1]; }
        }
      }
      if forall j :: 0 <= j < |vs| ==> !Truthy(vs[j]) {
        assert forall j :: 0 <= j < |vs[1..]| ==> !Truthy(vs[1..][j]) by {
          forall j | 0 <= j < |vs[1..]| ensures !Truthy(vs[1..][j]) { assert vs[1..][j] == vs[j + 1]; }
        }
      }
    }
  }

  /**
    The message is the `||` chain `data.message || message || data.title ||`
    the default text, so it is never falsy.
   */
  lemma MessageIsFirstTruthy(n: Record)
    ensures Message(n) == FirstTruthy([Member(Lookup(n, "data"), "message"), Lookup(n, "message"), Member(Lookup(n, "data"), "title")],
                                      Str(DefaultMessage))
  {
    var vs := [Member(Lookup(n, "data"), "message"), Lookup(n, "message"), Member(Lookup(n, "data"), "title")];
    var fb := Str(DefaultMessage);
    assert FirstTruthy(vs[2..], fb) == Or(vs[2], fb) by { assert vs[2..][1..] == []; }
    assert FirstTruthy(vs[1..], fb) == Or(vs[1], Or(vs[2], fb)) by { assert vs[1..][1..] == vs[2..]; }
  }

  /** The keys of the built-in icon map. */
  const IconNames: seq<string> := ["bell", "post", "user", "message", "alert", "check", "info"]

  /** The icon part: a class span, a built-in svg by name, or none. */
  datatype Icon = NoIcon | ClassIcon(cls: Value) | Svg(name: string)

  /**
    `getNotificationIcon(n)`: `data.icon_class` wins; a `data.icon` picks the
    svg of that name (the key is the value as a string), falling back to
    the bell; with neither there is no icon.
   */
  function GetIcon(n: Record): (r: Icon)
    ensures Truthy(Member(Lookup(n, "data"), "icon_class")) <==> r.ClassIcon?
    ensures r.ClassIcon? ==> r.cls == Member(Lookup(n, "data"), "icon_class")
    ensures r.NoIcon? <==> !Truthy(Member(Lookup(n, "data"), "icon_class")) && !Truthy(Member(Lookup(n, "data"), "icon"))
    ensures r.Svg? ==> r.name in IconNames
    ensures r.Svg? && Member(Lookup(n, "data"), "icon").Str? ==>
              r.name == if Member(Lookup(n, "data"), "icon").s in IconNames then Member(Lookup(n, "data"), "icon").s else "bell"
  {
    var d := Lookup(n, "data");
    if Truthy(Member(d, "icon_class")) then ClassIcon(Member(d, "icon_class"))
    else if Truthy(Member(d, "icon")) then
      var key := ToStr(Member(d, "icon"));
      Svg(if key in IconNames then key else "bell")
    else NoIcon
  }

  /** A known icon name in `data.icon` is drawn as that svg when no icon class is given. */
  lemma KnownIconRenders(n: Record, name: string)
    requires !Truthy(Member(Lookup(n, "data"), "icon_class")) && Member(Lookup(n, "data"), "icon") == Str(name)
    requires name in IconNames
    ensures GetIcon(n) == Svg(name)
  {
  }

  // ----- relative time -----

  /** `Math.floor((now - date) / 1000)`: Dafny's division by a positive number already rounds down. */
  function ElapsedSeconds(now: int, date: int): (s: int)
    ensures s * 1000 <= now - date < s * 1000 + 1000
  {
    (now - date) / 1000
  }

  /**
    `formatTimeAgo(dateString)`: an unparsable date is returned unchanged;
    otherwise the elapsed whole seconds are bucketed by successive floors
    into just now, minutes, hours, days, weeks, or a locale date.
   */
  function FormatTimeAgo(dateString: Value, date: Option<int>, now: int, localeDate: int -> string): (r: Value)
    ensures date.None? ==> r == dateString
    ensures date.Some? ==> r.Str?
  {
    match date
    case None => dateString
    case Some(t) =>
      var seconds := ElapsedSeconds(now, t);
      if seconds < 0 then Str("just now")
      else if seconds < 60 then Str("just now")
      else
        var minutes := seconds / 60;
        if minutes < 60 then Str(IntToDecimal(minutes) + "m ago")
        else
          var hours := minutes / 60;
          if hours < 24 then Str(IntToDecimal(hours) + "h ago")
          else
            var days := hours / 24;
            if days < 7 then Str(IntToDecimal(days) + "d ago")
            else if days < 30 then Str(IntToDecimal(days / 7) + "w ago")
            else Str(localeDate(t))
  }

  lemma MulMono(d: int, x: int, y: int)
    requires d > 0 && x <= y
    ensures d * x <= d * y
  {
    assert d * y - d * x == d * (y - x);
  }

  lemma DivUnique(a: int, d: int, q: int, m: int)
    requires d > 0 && 0 <= m < d && a == d * q + m
    ensures a / d == q
  {
    var p, r := a / d, a % d;
    assert a == d * p + r;
    if p > q {
      assert d * (q + 1) == d * q + d;
      MulMono(d, q + 1, p);
    } else if p < q {
      MulMono(d, p + 1, q);
    }
  }

  /** Floor division by `b` then by `c` is floor division by `b * c`. */
  lemma DivDiv(a: int, b: int, c: int)
    requires a >= 0 && b > 0 && c > 0
    ensures (a / b) / c == a / (b * c)
  {
    var q := a / b;
    var q2 := q / c;
    var m1, m2 := a % b, q % c;
    assert a == b * q + m1;
    assert q == c * q2 + m2;
    assert b * q == b * (c * q2) + b * m2;
    assert b * (c * q2) == (b * c) * q2;
    MulMono(b, m2, c - 1);
    assert b * (c - 1) == b * c - b;
    DivUnique(a, b * c, q2, b * m2 + m1);
  }

  /** The buckets as thresholds on the elapsed seconds, and each count as one division of them. */
  lemma TimeAgoBuckets(dateString: Value, t: int, now: int, localeDate: int -> string)
    ensures var s, r := ElapsedSeconds(now, t), FormatTimeAgo(dateString, Some(t), now, localeDate);
            && (s < 60 ==> r == Str("just now"))
            && (60 <= s < 3600 ==> r == Str(IntToDecimal(s / 60) + "m ago"))
            && (3600 <= s < 86400 ==> r == Str(IntToDecimal(s / 3600) + "h ago"))
            && (86400 <= s < 604800 ==> r == Str(IntToDecimal(s / 86400) + "d ago"))
            && (604800 <= s < 2592000 ==> r == Str(IntToDecimal(s / 604800) + "w ago"))
            && (2592000 <= s ==> r == Str(localeDate(t)))
  {
    var s := ElapsedSeconds(now, t);
    if s >= 0 {
      DivDiv(s, 60, 60);
      DivDiv(s, 3600, 24);
      DivDiv(s, 86400, 7);
    }
  }

  /**
    Every count the text shows is at least one and below the next unit:
    never `0m ago` or `60m ago`, never `24h ago`, `7d ago` or `5w ago`.
   */
  lemma TimeAgoCountsInRange(dateString: Value, t: int, now: int, localeDate: int -> string)
    ensures var s, r := ElapsedSeconds(now, t), FormatTimeAgo(dateString, Some(t), now, localeDate);
            && (60 <= s < 3600 ==> exists k :: 1 <= k < 60 && r == Str(IntToDecimal(k) + "m ago"))
            && (3600 <= s < 86400 ==> exists k :: 1 <= k < 24 && r == Str(IntToDecimal(k) + "h ago"))
            && (86400 <= s < 604800 ==> exists k :: 1 <= k < 7 && r == Str(IntToDecimal(k) + "d ago"))
            && (604800 <= s < 2592000 ==> exists k :: 1 <= k <= 4 && r == Str(IntToDecimal(k) + "w ago"))
  {
    TimeAgoBuckets(dateString, t, now, localeDate);
    var s := ElapsedSeconds(now, t);
    assert 60 <= s < 3600 ==> 1 <= s / 60 < 60;
    assert 3600 <= s < 86400 ==> 1 <= s / 3600 < 24;
    assert 86400 <= s < 604800 ==> 1 <= s / 86400 < 7;
    assert 604800 <= s < 2592000 ==> 1 <= s / 604800 <= 4;
  }

  // ----- action buttons -----

  /** What the default action template decides for one button. */
  datatype ActionButton = ActionButton(
    colorClass: string,
    /** `link` or `custom`. */
    kind: string,
    name: Value,
    url: Value,
    disabled: bool,
    icon: Value,
    caption: Value)

  /**
    `defaultActionTemplate(action)`: the color class comes from `color`,
    else `type`; a button with a URL is a link; the name falls back to the
    URL and then to `'action'`. Reading from a null action throws.
   */
  function RenderAction(action: Value): (r: Result<ActionButton>)
    ensures r.Thrown? <==> Nullish(action)
    ensures r.Ok? ==> (r.value.kind == "link" <==> Truthy(Member(action, "url")))
    ensures r.Ok? ==> (r.value.kind == "custom" <==> !Truthy(Member(action, "url")))
    ensures r.Ok? ==> r.value.name == Or(Member(action, "name"), Or(Member(action, "url"), Str("action")))
    ensures r.Ok? && Truthy(Member(action, "color")) ==> r.value.colorClass == "btn-" + ToStr(Member(action, "color"))
    ensures r.Ok? && !Truthy(Member(action, "color")) && Truthy(Member(action, "type")) ==>
              r.value.colorClass == "btn-" + ToStr(Member(action, "type"))
    ensures r.Ok? && !Truthy(Member(action, "color")) && !Truthy(Member(action, "type")) ==> r.value.colorClass == ""
    ensures r.Ok? ==> Truthy(r.value.name) && r.value.disabled == Truthy(Member(action, "isDisabled"))
    ensures r.Ok? ==> r.value.url == Or(Member(action, "url"), Null)
    ensures r.Ok? ==> r.value.caption == Member(action, "label") && r.value.icon == Member(action, "icon")
  {
    if Nullish(action) then Thrown(TypeError)
    else
      var color, kind := Member(action, "color"), Member(action, "type");
      var colorClass := if Truthy(color) then "btn-" + ToStr(color) else if Truthy(kind) then "btn-" + ToStr(kind) else "";
      var url := Or(Member(action, "url"), Null);
      Ok(ActionButton(colorClass, if Truthy(url) then "link" else "custom",
                      Or(Member(action, "name"), Or(Member(action, "url"), Str("action"))),
                      url, Truthy(Member(action, "isDisabled")), Member(action, "icon"), Member(action, "label")))
  }

  /** An action object with a name, a URL and a color, not disabled, is an enabled link button in that color. */
  lemma LinkActionRenders(action: Value, name: string, url: string, color: string)
    requires action.Obj? && name != "" && url != "" && color != ""
    requires Member(action, "name") == Str(name) && Member(action, "url") == Str(url)
    requires Member(action, "color") == Str(color) && Member(action, "isDisabled") == Bool(false)
    ensures RenderAction(action) == Ok(ActionButton("btn-" + color, "link", Str(name), Str(url), false,
                                                    Member(action, "icon"), Member(action, "label")))
  {
  }

  // ----- the list item -----

  /**
    A part drawn by a slot: the built-in template's decision, or the
    registered function it was handed to, which the model does not look into.
   */
  datatype IconPart = IconOf(icon: Icon) | IconBy(fn: TemplateFn)

  datatype ButtonPart = ButtonOf(button: ActionButton) | ButtonBy(fn: TemplateFn, action: Value)

  datatype ActionsPart = ButtonsOf(buttons: seq<ButtonPart>) | ActionsBy(fn: TemplateFn, actions: Value)

  /** What the built-in content template shows. */
  datatype Content = Content(icon: IconPart, time: Value, title: Value, message: Value)

  datatype ContentPart = ContentOf(content: Content) | ContentBy(fn: TemplateFn)

  datatype Item = Item(
    id: Value,
    unread: bool,
    isNew: bool,
    /** `data-mark-on-click`. */
    markOnClick: bool,
    /** The content's link target, or null for a plain `div`. */
    link: Value,
    content: ContentPart,
    markReadButton: bool,
    /** The action footer, when there are actions. */
    footer: Option<ActionsPart>)

  datatype ItemPart = ItemOf(item: Item) | ItemBy(fn: TemplateFn, entry: Value)

  /** The environment of a rendering: date parsing, the clock, locale date formatting. */
  datatype Clock = Clock(parseDate: Value -> Option<int>, now: int, localeDate: int -> string)

  /** `renderNotificationIcon(n)`: the registered icon template, else the built-in icon. */
  function RenderIcon(r: Renderer, n: Record): (p: IconPart)
    ensures p.IconBy? <==> GetTemplate(r, "notificationIcon").Custom?
    ensures p.IconBy? ==> p.fn == GetTemplate(r, "notificationIcon").fn
    ensures p.IconOf? ==> p.icon == GetIcon(n)
  {
    match GetTemplate(r, "notificationIcon")
    case Custom(fn) => IconBy(fn)
    case Default => IconOf(GetIcon(n))
  }

  /**
    `renderNotificationContent(n)`: the registered content template, else
    `defaultNotificationContent(n)`, whose title lookup is the one step that
    can throw.
   */
  function RenderContent(r: Renderer, n: Record, clock: Clock): (c: Result<ContentPart>)
    ensures GetTemplate(r, "notificationContent").Custom? ==> c == Ok(ContentBy(GetTemplate(r, "notificationContent").fn))
    ensures GetTemplate(r, "notificationContent").Default? ==> (c.Thrown? <==> Title(n).Thrown?)
    ensures c.Ok? && c.value.ContentOf? ==>
              && GetTemplate(r, "notificationContent").Default?
              && c.value.content.title == Title(n).value && c.value.content.message == Message(n)
              && c.value.content.icon == RenderIcon(r, n)
  {
    match GetTemplate(r, "notificationContent")
    case Custom(fn) => Ok(ContentBy(fn))
    case Default =>
      var when := Or(Lookup(n, "created_at"), Lookup(n, "created"));
      var time := FormatTimeAgo(when, clock.parseDate(when), clock.now, clock.localeDate);
      match Title(n)
      case Thrown(e) => Thrown(e)
      case Ok(title) => Ok(ContentOf(Content(RenderIcon(r, n), time, title, Message(n))))
  }

  /** `renderAction(action)`: the registered action template, else the built-in button. */
  function RenderButton(r: Renderer, action: Value): (b: Result<ButtonPart>)
    ensures GetTemplate(r, "notificationAction").Custom? ==> b == Ok(ButtonBy(GetTemplate(r, "notificationAction").fn, action))
    ensures GetTemplate(r, "notificationAction").Default? ==> (b.Thrown? <==> Nullish(action))
    ensures b.Ok? && b.value.ButtonOf? ==> Ok(b.value.button) == RenderAction(action)
  {
    match GetTemplate(r, "notificationAction")
    case Custom(fn) => Ok(ButtonBy(fn, action))
    case Default =>
      match RenderAction(action)
      case Thrown(e) => Thrown(e)
      case Ok(b) => Ok(ButtonOf(b))
  }

  /** The `actions.map(renderAction)` of the built-in actions template: one button per action, in order. */
  function RenderButtons(r: Renderer, actions: seq<Value>): (bs: Result<seq<ButtonPart>>)
    ensures bs.Ok? <==> forall i :: 0 <= i < |actions| ==> RenderButton(r, actions[i]).Ok?
    ensures bs.Ok? ==> |bs.value| == |actions| && forall i :: 0 <= i < |actions| ==> Ok(bs.value[i]) == RenderButton(r, actions[i])
  {
    if |actions| == 0 then Ok([])
    else match RenderButton(r, actions[0])
      case Thrown(e) => Thrown(e)
      case Ok(b) =>
        match RenderButtons(r, actions[1..])
        case Thrown(e) =>
          assert exists i :: 0 <= i < |actions[1..]| && RenderButton(r, actions[1..][i]).Thrown?;
          Thrown(e)
        case Ok(bs) => Ok([b] + bs)
  }

  /**
    `renderActions(actions)`: the registered actions template gets the value
    whatever it is; the built-in one calls `actions.map`, which only an
    array has.
   */
  function RenderActions(r: Renderer, actions: Value): (p: Result<ActionsPart>)
    ensures GetTemplate(r, "notificationActions").Custom? ==> p == Ok(ActionsBy(GetTemplate(r, "notificationActions").fn, actions))
    ensures GetTemplate(r, "notificationActions").Default? && !actions.Arr? ==> p == Thrown(TypeError)
    ensures GetTemplate(r, "notificationActions").Default? && actions.Arr? ==>
              && (p.Ok? <==> RenderButtons(r, actions.elems).Ok?)
              && (p.Ok? ==> p.value == ButtonsOf(RenderButtons(r, actions.elems).value))
  {
    match GetTemplate(r, "notificationActions")
    case Custom(fn) => Ok(ActionsBy(fn, actions))
    case Default =>
      if !actions.Arr? then Thrown(TypeError)
      else match RenderButtons(r, actions.elems)
        case Thrown(e) => Thrown(e)
        case Ok(bs) => Ok(ButtonsOf(bs))
  }

  /** `notification.actions || []`, what the item template reads its actions from. */
  function ActionsOf(n: Record): (a: Value)
    ensures Truthy(Lookup(n, "actions")) ==> a == Lookup(n, "actions")
    ensures !Truthy(Lookup(n, "actions")) ==> a == Arr([])
  {
    Or(Lookup(n, "actions"), Arr([]))
  }

  /**
    `actions.length > 0`: an array or a string by its length; an object by
    its own `length` property, a positive number or `true`; other values
    have no `length`.
   */
  predicate HasActions(actions: Value)
  {
    match actions
    case Arr(es) => |es| > 0
    case Str(s) => |s| > 0
    case Obj(ps) => var len := Lookup(ps, "length"); (len.Num? && len.n > 0) || len == Bool(true)
    case _ => false
  }

  /**
    `defaultNotificationTemplate(n)`: unread records get the mark-read
    button and, when the option is on, mark-on-click; a `data.action_url`
    turns the content into a link; the content is drawn by its slot; and
    when `actions.length > 0` the footer is drawn by the actions slot, so an
    array-like object or a string there throws under the built-in template.
   */
  function RenderItem(r: Renderer, n: Record, clock: Clock): (res: Result<Item>)
    ensures res.Ok? ==> res.value.unread == IsUnread(n)
    ensures res.Ok? ==> res.value.markReadButton == IsUnread(n)
    ensures res.Ok? ==> res.value.markOnClick == (r.markReadOnClick && IsUnread(n))
    ensures res.Ok? ==> (res.value.link != Null <==> Truthy(Member(Lookup(n, "data"), "action_url")))
    ensures res.Ok? ==> Ok(res.value.content) == RenderContent(r, n, clock)
    ensures res.Ok? ==> (res.value.footer.Some? <==> HasActions(ActionsOf(n)))
    ensures res.Ok? && res.value.footer.Some? ==> Ok(res.value.footer.value) == RenderActions(r, ActionsOf(n))
    ensures res.Thrown? <==> RenderContent(r, n, clock).Thrown? || (HasActions(ActionsOf(n)) && RenderActions(r, ActionsOf(n)).Thrown?)
  {
    var unread := IsUnread(n);
    var link := Or(Member(Lookup(n, "data"), "action_url"), Null);
    var actions := ActionsOf(n);
    match RenderContent(r, n, clock)
    case Thrown(e) => Thrown(e)
    case Ok(content) =>
      if !HasActions(actions) then
        Ok(Item(IdOf(n), unread, Truthy(Lookup(n, "_isNew")), r.markReadOnClick && unread, link, content, unread, None))
      else match RenderActions(r, actions)
        case Thrown(e) => Thrown(e)
        case Ok(footer) =>
          Ok(Item(IdOf(n), unread, Truthy(Lookup(n, "_isNew")), r.markReadOnClick && unread, link, content, unread, Some(footer)))
  }

  /**
    A list entry as the built-in item template reads it: an object's own
    properties; any other non-null value has none of the keys it reads.
   */
  function AsRecord(v: Value): (n: Record)
    ensures v.Obj? ==> n == v.props
    ensures !v.Obj? ==> forall k :: Lookup(n, k) == Undefined
  {
    if v.Obj? then v.props else []
  }

  /**
    `renderNotification(n)` for one list entry: a registered notification
    template is handed the entry whatever it is; the built-in item reads
    `n.read_at` first, which throws on null and undefined, and otherwise
    draws the entry's properties.
   */
  function RenderNotification(r: Renderer, v: Value, clock: Clock): (p: Result<ItemPart>)
    ensures GetTemplate(r, "notification").Custom? ==> p == Ok(ItemBy(GetTemplate(r, "notification").fn, v))
    ensures GetTemplate(r, "notification").Default? && Nullish(v) ==> p == Thrown(TypeError)
    ensures GetTemplate(r, "notification").Default? && !Nullish(v) ==> (p.Ok? <==> RenderItem(r, AsRecord(v), clock).Ok?)
    ensures p.Ok? && p.value.ItemOf? ==> Ok(p.value.item) == RenderItem(r, AsRecord(v), clock)
  {
    match GetTemplate(r, "notification")
    case Custom(fn) => Ok(ItemBy(fn, v))
    case Default =>
      if Nullish(v) then Thrown(TypeError)
      else match RenderItem(r, AsRecord(v), clock)
        case Thrown(e) => Thrown(e)
        case Ok(item) => Ok(ItemOf(item))
  }

  // ----- the list -----

  /** One part of the rendered list and the template that renders it. */
  datatype Piece = EmptyState(t: Chosen) | NotificationPiece(part: ItemPart) | LoadMore(t: Chosen)

  /** Entry `i` is the first of `es` whose rendering throws. */
  predicate FirstThrow(r: Renderer, es: seq<Value>, clock: Clock, i: int)
  {
    && 0 <= i < |es|
    && RenderNotification(r, es[i], clock).Thrown?
    && forall j :: 0 <= j < i ==> RenderNotification(r, es[j], clock).Ok?
  }

  /**
    `renderNotifications(notifications, hasMore = false)`: the empty state
    alone for anything but a non-empty array; otherwise one item per
    notification, in order, and the load-more footer when `hasMore`. One
    entry that throws makes the whole list throw, footer included.
   */
  function RenderNotifications(r: Renderer, notifications: Value, hasMore: Value, clock: Clock): (res: Result<seq<Piece>>)
    ensures !notifications.Arr? || |notifications.elems| == 0 ==> res == Ok([EmptyState(GetTemplate(r, "emptyState"))])
    ensures notifications.Arr? && |notifications.elems| > 0 ==>
              (res.Ok? <==> forall i :: 0 <= i < |notifications.elems| ==> RenderNotification(r, notifications.elems[i], clock).Ok?)
    ensures notifications.Arr? && |notifications.elems| > 0 && res.Ok? ==>
              && |res.value| == |notifications.elems| + (if Truthy(hasMore) then 1 else 0)
              && (forall i :: 0 <= i < |notifications.elems| ==>
                    res.value[i].NotificationPiece? && Ok(res.value[i].part) == RenderNotification(r, notifications.elems[i], clock))
              && (Truthy(hasMore) ==> res.value[|res.value| - 1] == LoadMore(GetTemplate(r, "loadMoreButton")))
    ensures res.Thrown? ==>
              && notifications.Arr?
              && (exists i :: && FirstThrow(r, notifications.elems, clock, i)
                              && RenderNotification(r, notifications.elems[i], clock) == Thrown(res.error))
  {
    if !notifications.Arr? || |notifications.elems| == 0 then Ok([EmptyState(GetTemplate(r, "emptyState"))])
    else
      match MapAll(notifications.elems, v => RenderNotification(r, v, clock))
      case Thrown(e) => Thrown(e)
      case Ok(parts) =>
        Ok(seq(|parts|, i requires 0 <= i < |parts| => NotificationPiece(parts[i]))
           + (if Truthy(hasMore) then [LoadMore(GetTemplate(r, "loadMoreButton"))] else []))
  }

  /** The empty state and the load-more footer never appear together, and the footer only ever comes last. */
  lemma EmptyStateExcludesFooter(r: Renderer, notifications: Value, hasMore: Value, clock: Clock)
    requires RenderNotifications(r, notifications, hasMore, clock).Ok?
    ensures var ps := RenderNotifications(r, notifications, hasMore, clock).value;
            && ((exists i :: 0 <= i < |ps| && ps[i].EmptyState?) ==> |ps| == 1)
            && forall i :: 0 <= i < |ps| - 1 ==> !ps[i].LoadMore?
  {
    var ps := RenderNotifications(r, notifications, hasMore, clock).value;
    if notifications.Arr? && |notifications.elems| > 0 {
      assert forall i :: 0 <= i < |notifications.elems| ==> ps[i].NotificationPiece?;
    }
  }

  /** A single entry that cannot be drawn takes the whole list, and its footer, down with it. */
  lemma OneBadEntrySinksList(r: Renderer, es: seq<Value>, hasMore: Value, clock: Clock, i: int)
    requires 0 <= i < |es| && RenderNotification(r, es[i], clock).Thrown?
    ensures RenderNotifications(r, Arr(es), hasMore, clock).Thrown?
  {
  }

  /**
    Under the built-in templates a record whose `type` is a number cannot be
    titled, so a list holding it throws, however many good records precede it.
   */
  lemma NumericTypeSinksList(clock: Clock, good: seq<Value>, hasMore: Value)
    ensures RenderNotifications(Create(None), Arr(good + [Obj([Prop("type", Num(5))])]), hasMore, clock).Thrown?
  {
    var r := Create(None);
    var n := [Prop("type", Num(5))];
    NumericTypeUntitled(n);
    assert RenderNotification(r, Obj(n), clock).Thrown?;
    OneBadEntrySinksList(r, good + [Obj(n)], hasMore, clock, |good|);
  }

  lemma NumericTypeUntitled(n: Record)
    requires n == [Prop("type", Num(5))]
    ensures Title(n).Thrown?
  {
    assert "type"[0] != "data"[0] && |"type"| != |"title"|;
    assert Lookup(n, "data") == Undefined && Lookup(n, "title") == Undefined && Lookup(n, "type") == Num(5);
  }

  /** Under the built-in item template a null entry at the head of the list throws a TypeError for the whole list. */
  lemma NullEntrySinksList(clock: Clock, good: seq<Value>, hasMore: Value)
    ensures RenderNotifications(Create(None), Arr([Null] + good), hasMore, clock) == Thrown(TypeError)
  {
    assert FirstThrow(Create(None), [Null] + good, clock, 0);
  }

  /** A registered notification template draws every entry, in order, and never throws. */
  lemma RegisteredItemsNeverThrow(r: Renderer, es: seq<Value>, hasMore: Value, clock: Clock)
    requires GetTemplate(r, "notification").Custom? && |es| > 0
    ensures var res := RenderNotifications(r, Arr(es), hasMore, clock);
            && res.Ok?
            && forall i :: 0 <= i < |es| ==> res.value[i] == NotificationPiece(ItemBy(GetTemplate(r, "notification").fn, es[i]))
  {
  }

  // ----- properties of the item -----

  /** A read record never offers a mark-read control, whatever the options. */
  lemma ReadRecordHasNoMarkControls(r: Renderer, n: Record, clock: Clock)
    requires !IsUnread(n) && RenderItem(r, n, clock).Ok?
    ensures !RenderItem(r, n, clock).value.markReadButton && !RenderItem(r, n, clock).value.markOnClick
  {
  }

  /**
    Under the built-in templates an item renders exactly when its title can
    be worked out and every action in a non-empty `actions` array is an
    object: a null action or an array-like `actions` throws.
   */
  lemma DefaultItemRenders(r: Renderer, n: Record, clock: Clock)
    requires GetTemplate(r, "notificationContent").Default? && GetTemplate(r, "notificationActions").Default?
    requires GetTemplate(r, "notificationAction").Default?
    ensures RenderItem(r, n, clock).Ok? <==>
              && Title(n).Ok?
              && (HasActions(ActionsOf(n)) ==>
                    && ActionsOf(n).Arr?
                    && forall i :: 0 <= i < |ActionsOf(n).elems| ==> !Nullish(ActionsOf(n).elems[i]))
  {
    var a := ActionsOf(n);
    if Title(n).Ok? && HasActions(a) && a.Arr? {
      if RenderButtons(r, a.elems).Ok? {
        forall i | 0 <= i < |a.elems| ensures !Nullish(a.elems[i]) {
          assert RenderButton(r, a.elems[i]).Ok?;
        }
      } else {
        var i :| 0 <= i < |a.elems| && !RenderButton(r, a.elems[i]).Ok?;
        assert Nullish(a.elems[i]);
      }
    }
  }

  /**
    An object posing as the actions array, `{length: 2}`, passes the length
    test; the built-in actions template then throws on `map`, while a
    registered one receives the object as it is.
   */
  lemma ArrayLikeActions(r: Renderer, n: Record, clock: Clock)
    requires Lookup(n, "actions") == Obj([Prop("length", Num(2))])
    requires RenderContent(r, n, clock).Ok?
    ensures GetTemplate(r, "notificationActions").Default? ==> RenderItem(r, n, clock) == Thrown(TypeError)
    ensures GetTemplate(r, "notificationActions").Custom? ==>
              && RenderItem(r, n, clock).Ok?
              && RenderItem(r, n, clock).value.footer
                 == Some(ActionsBy(GetTemplate(r, "notificationActions").fn, Obj([Prop("length", Num(2))])))
  {
    assert HasActions(Obj([Prop("length", Num(2))]));
  }

  /** With the content and actions slots registered, nothing in the built-in item can throw. */
  lemma RegisteredPartsNeverThrow(r: Renderer, n: Record, clock: Clock)
    requires GetTemplate(r, "notificationContent").Custom? && GetTemplate(r, "notificationActions").Custom?
    ensures RenderItem(r, n, clock).Ok?
    ensures RenderNotification(r, Obj(n), clock).Ok?
  {
  }
}
