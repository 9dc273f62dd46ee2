/**
  A small model of the JavaScript values the notification client handles:
  primitives, arrays, plain objects (as ordered property lists, so that key
  order is kept as JavaScript keeps it) and instances of the action builder.
  Numbers are modelled as integers.
 */
module JsValue {

  datatype Option<T> = None | Some(value: T)

  /** The two exceptions the modelled code can raise on its own. */
  datatype JsError = TypeError | RangeError

  /** Normal completion or a thrown exception. */
  datatype Result<T> = Ok(value: T) | Thrown(error: JsError)

  datatype Value =
    | Undefined
    | Null
    | Bool(b: bool)
    | Num(n: int)
    | Str(s: string)
    | Arr(elems: seq<Value>)
    | Obj(props: seq<Prop>)
      /** An instance of the action builder class; `fields` is its `_data`. */
    | ActionInst(fields: seq<Prop>)

  datatype Prop = Prop(key: string, val: Value)

  /** A plain object: its own enumerable properties, in insertion order. */
  type Object = seq<Prop>

  /** JavaScript truthiness (`if (v)`, `!v`). */
  predicate Truthy(v: Value) {
    match v
    case Undefined => false
    case Null => false
    case Bool(b) => b
    case Num(n) => n != 0
    case Str(s) => s != ""
    case _ => true
  }

  /** JavaScript `a || b`. */
  function Or(a: Value, b: Value): (r: Value)
    ensures Truthy(a) ==> r == a
    ensures !Truthy(a) ==> r == b
    ensures Truthy(r) <==> Truthy(a) || Truthy(b)
  {
    if Truthy(a) then a else b
  }

  /** The keys of `o`, in order (`Object.keys(o)`). */
  function Keys(o: Object): (ks: seq<string>)
    ensures |ks| == |o| && forall i :: 0 <= i < |o| ==> ks[i] == o[i].key
  {
    seq(|o|, i requires 0 <= i < |o| => o[i].key)
  }

  lemma KeysCons(o: Object)
    requires |o| > 0
    ensures Keys(o) == [o[0].key] + Keys(o[1..])
  {
  }

  /** `k in o`. */
  predicate HasKey(o: Object, k: string) {
    k in Keys(o)
  }

  /** `o[k]`: the first property named `k`, or undefined. */
  function Lookup(o: Object, k: string): Value
  {
    if |o| == 0 then Undefined
    else if o[0].key == k then o[0].val
    else Lookup(o[1..], k)
  }

  /** `o[k] = v`: overwrite in place when the key exists, else append. */
  function Assign(o: Object, k: string, v: Value): (r: Object)
    ensures Keys(r) == if HasKey(o, k) then Keys(o) else Keys(o) + [k]
    ensures !HasKey(o, k) ==> r == o + [Prop(k, v)]
  {
    if |o| == 0 then [Prop(k, v)]
    else if o[0].key == k then
      KeysCons(o);
      KeysPrepend(Prop(k, v), o[1..]);
      [Prop(k, v)] + o[1..]
    else
      var t := Assign(o[1..], k, v);
      KeysCons(o);
      KeysPrepend(o[0], t);
      [o[0]] + t
  }

  lemma KeysPrepend(p: Prop, o: Object)
    ensures Keys([p] + o) == [p.key] + Keys(o)
  {
    KeysCons([p] + o);
    assert ([p] + o)[1..] == o;
  }

  lemma {:induction false} LookupAssign(o: Object, k: string, v: Value, k': string)
    ensures Lookup(Assign(o, k, v), k') == if k' == k then v else Lookup(o, k')
  {
    if |o| == 0 {
    } else if o[0].key == k {
      assert Assign(o, k, v)[1..] == o[1..];
    } else {
      LookupAssign(o[1..], k, v, k');
      assert Assign(o, k, v)[1..] == Assign(o[1..], k, v);
    }
  }

  /** The write changes the one property read and no other. */
  lemma LookupAssignAll(o: Object, k: string, v: Value)
    ensures forall k' :: Lookup(Assign(o, k, v), k') == if k' == k then v else Lookup(o, k')
  {
    forall k' ensures Lookup(Assign(o, k, v), k') == if k' == k then v else Lookup(o, k') {
      LookupAssign(o, k, v, k');
    }
  }

  /** Assigning a property that is already there with the same value changes nothing. */
  lemma {:induction false} AssignSame(o: Object, k: string, v: Value)
    requires Lookup(o, k) == v && HasKey(o, k)
    ensures Assign(o, k, v) == o
  {
    assert o == [o[0]] + o[1..];
    if o[0].key == k {
      assert o[0] == Prop(k, v);
    } else {
      KeysCons(o);
      AssignSame(o[1..], k, v);
    }
  }

  /** Reading a key the object does not have gives undefined. */
  lemma {:induction false} LookupAbsent(o: Object, k: string)
    requires !HasKey(o, k)
    ensures Lookup(o, k) == Undefined
  {
    if |o| > 0 {
      KeysCons(o);
      LookupAbsent(o[1..], k);
    }
  }

  /** The property read finds the first occurrence of its key. */
  lemma {:induction false} LookupFirst(o: Object, i: nat, k: string)
    requires i < |o| && o[i].key == k
    requires forall j :: 0 <= j < i ==> o[j].key != k
    ensures Lookup(o, k) == o[i].val
  {
    if i > 0 {
      LookupFirst(o[1..], i - 1, k);
    }
  }

  /** `v.k` (and `v?.k`): a property read; only objects carry the keys the client reads. */
  function Member(v: Value, k: string): (r: Value)
    ensures !v.Obj? && !v.ActionInst? ==> r == Undefined
    ensures v.Obj? ==> r == Lookup(v.props, k)
  {
    match v
    case Obj(ps) => Lookup(ps, k)
    case ActionInst(fs) => if k == "_data" then Obj(fs) else Undefined
    case _ => Undefined
  }

  /** `v == null`: undefined or null, the values whose property reads throw. */
  predicate Nullish(v: Value) {
    v == Undefined || v == Null
  }

  /** `typeof v === 'object'` for a non-null value: something that can take a property. */
  predicate IsObject(v: Value) {
    v.Obj? || v.Arr? || v.ActionInst?
  }

  /**
    `v.k = x` in strict-mode code (class bodies are strict): objects take the
    property; writing to null, undefined or a primitive throws a TypeError.
    Named properties of arrays and builder instances are not represented, so
    writing one leaves the value as it was.
   */
  function SetMember(v: Value, k: string, x: Value): (r: Result<Value>)
    ensures r.Ok? <==> IsObject(v)
    ensures r.Thrown? ==> r.error == TypeError
    ensures v.Obj? ==> r.Ok? && r.value.Obj?
    ensures v.Obj? ==> forall k' :: Member(r.value, k') == if k' == k then x else Member(v, k')
    ensures v.Arr? || v.ActionInst? ==> r == Ok(v)
  {
    if v.Obj? then
      LookupAssignAll(v.props, k, x);
      Ok(Obj(Assign(v.props, k, x)))
    else if IsObject(v) then Ok(v)
    else Thrown(TypeError)
  }

  /** Drops the properties whose value is undefined (what `JSON.stringify` does). */
  function DropUndefined(ps: seq<Prop>): (r: seq<Prop>)
    ensures |r| <= |ps|
    ensures forall i :: 0 <= i < |r| ==> r[i].val != Undefined
    ensures (forall i :: 0 <= i < |ps| ==> ps[i].val != Undefined) ==> r == ps
  {
    if |ps| == 0 then []
    else if ps[0].val == Undefined then DropUndefined(ps[1..])
    else [ps[0]] + DropUndefined(ps[1..])
  }

  /**
    `JSON.parse(JSON.stringify(v))` for a value that is not itself undefined:
    undefined properties vanish, undefined array slots become null, and a
    builder instance is serialised through its own fields, i.e. as `{_data: ...}`.
   */
  function JsonClone(v: Value): (r: Value)
    decreases v
  {
    match v
    case Arr(es) =>
      Arr(seq(|es|, i requires 0 <= i < |es| =>
        if es[i] == Undefined then Null else JsonClone(es[i])))
    case Obj(ps) =>
      Obj(DropUndefined(seq(|ps|, i requires 0 <= i < |ps| =>
        Prop(ps[i].key, if ps[i].val == Undefined then Undefined else JsonClone(ps[i].val)))))
    case ActionInst(fs) =>
      Obj([Prop("_data", Obj(DropUndefined(seq(|fs|, i requires 0 <= i < |fs| =>
        Prop(fs[i].key, if fs[i].val == Undefined then Undefined else JsonClone(fs[i].val))))))])
    case _ => v
  }

  /** A value that JSON represents exactly: no undefined anywhere, no class instances. */
  predicate JsonPlain(v: Value)
    decreases v
  {
    match v
    case Undefined => false
    case ActionInst(_) => false
    case Arr(es) => forall i :: 0 <= i < |es| ==> JsonPlain(es[i])
    case Obj(ps) => forall i :: 0 <= i < |ps| ==> JsonPlain(ps[i].val)
    case _ => true
  }

  /** Writing a JSON-plain value into a JSON-plain object keeps it plain. */
  lemma {:induction false} AssignKeepsPlain(o: Object, k: string, v: Value)
    requires JsonPlain(Obj(o)) && JsonPlain(v)
    ensures JsonPlain(Obj(Assign(o, k, v)))
  {
    if |o| > 0 && o[0].key != k {
      assert JsonPlain(Obj(o[1..])) by {
        forall i | 0 <= i < |o[1..]| ensures JsonPlain(o[1..][i].val) { assert o[1..][i] == o[i + 1]; }
      }
      AssignKeepsPlain(o[1..], k, v);
      var t := Assign(o[1..], k, v);
      assert Assign(o, k, v) == [o[0]] + t;
      forall i | 0 <= i < |[o[0]] + t| ensures JsonPlain(([o[0]] + t)[i].val) {
        if i > 0 { assert ([o[0]] + t)[i] == t[i - 1]; }
      }
    } else if |o| > 0 {
      forall i | 0 <= i < |Assign(o, k, v)| ensures JsonPlain(Assign(o, k, v)[i].val) {
        if i > 0 { assert Assign(o, k, v)[i] == o[i]; }
      }
    }
  }

  /** The JSON round trip is the identity exactly on JSON-plain values. */
  lemma {:induction false} JsonCloneOfPlain(v: Value)
    requires JsonPlain(v)
    ensures JsonClone(v) == v
    decreases v
  {
    match v
    case Arr(es) =>
      forall i | 0 <= i < |es|
        ensures JsonClone(es[i]) == es[i]
      {
        JsonCloneOfPlain(es[i]);
      }
      assert JsonClone(v).elems == es;
    case Obj(ps) =>
      var cs := seq(|ps|, i requires 0 <= i < |ps| =>
        Prop(ps[i].key, if ps[i].val == Undefined then Undefined else JsonClone(ps[i].val)));
      forall i | 0 <= i < |ps|
        ensures cs[i] == ps[i]
      {
        JsonCloneOfPlain(ps[i].val);
      }
      assert cs == ps;
    case _ =>
  }

  /** The JSON round trip never yields a builder instance or an undefined slot. */
  lemma {:induction false} JsonCloneIsPlain(v: Value)
    requires v != Undefined
    ensures JsonPlain(JsonClone(v))
    decreases v
  {
    match v
    case Arr(es) =>
      forall i | 0 <= i < |es|
        ensures JsonPlain(JsonClone(v).elems[i])
      {
        if es[i] != Undefined { JsonCloneIsPlain(es[i]); }
      }
    case Obj(ps) =>
      var cs := seq(|ps|, i requires 0 <= i < |ps| =>
        Prop(ps[i].key, if ps[i].val == Undefined then Undefined else JsonClone(ps[i].val)));
      forall i | 0 <= i < |cs| && cs[i].val != Undefined
        ensures JsonPlain(cs[i].val)
      {
        JsonCloneIsPlain(ps[i].val);
      }
      DropUndefinedKeeps(cs);
    case ActionInst(fs) =>
      var cs := seq(|fs|, i requires 0 <= i < |fs| =>
        Prop(fs[i].key, if fs[i].val == Undefined then Undefined else JsonClone(fs[i].val)));
      forall i | 0 <= i < |cs| && cs[i].val != Undefined
        ensures JsonPlain(cs[i].val)
      {
        JsonCloneIsPlain(fs[i].val);
      }
      DropUndefinedKeeps(cs);
    case _ =>
  }

  lemma {:induction false} DropUndefinedKeeps(ps: seq<Prop>)
    requires forall i :: 0 <= i < |ps| && ps[i].val != Undefined ==> JsonPlain(ps[i].val)
    ensures forall i :: 0 <= i < |DropUndefined(ps)| ==> JsonPlain(DropUndefined(ps)[i].val)
  {
    if |ps| > 0 {
      DropUndefinedKeeps(ps[1..]);
    }
  }

  /** Reading a property through the JSON round trip reads the round trip of the property. */
  lemma {:induction false} LookupJsonClone(ps: seq<Prop>, k: string)
    requires Lookup(ps, k) != Undefined
    ensures JsonClone(Obj(ps)).Obj? && Lookup(JsonClone(Obj(ps)).props, k) == JsonClone(Lookup(ps, k))
  {
    var cs := seq(|ps|, i requires 0 <= i < |ps| =>
      Prop(ps[i].key, if ps[i].val == Undefined then Undefined else JsonClone(ps[i].val)));
    var rest := ps[1..];
    var cs' := seq(|rest|, i requires 0 <= i < |rest| =>
      Prop(rest[i].key, if rest[i].val == Undefined then Undefined else JsonClone(rest[i].val)));
    assert cs[1..] == cs';
    assert JsonClone(Obj(ps)).props == DropUndefined(cs);
    if ps[0].key != k {
      LookupJsonClone(rest, k);
      assert JsonClone(Obj(rest)).props == DropUndefined(cs');
    }
  }

  /** Objects as JavaScript builds them: no key occurs twice. */
  predicate DistinctKeys(o: Object) {
    forall i, j :: 0 <= i < j < |o| ==> o[i].key != o[j].key
  }

  /** `{...a, ...b}` for plain objects: `a`'s properties in order, overwritten or extended by `b`'s. */
  function Merge(a: Object, b: Object): (r: Object)
    ensures forall k :: HasKey(r, k) <==> HasKey(a, k) || HasKey(b, k)
    decreases |b|
  {
    if |b| == 0 then a
    else
      KeysCons(b);
      Merge(Assign(a, b[0].key, b[0].val), b[1..])
  }

  /** In a merge, the incoming object's keys win and every other key keeps its value. */
  lemma {:induction false} LookupMerge(a: Object, b: Object, k: string)
    requires DistinctKeys(b)
    ensures Lookup(Merge(a, b), k) == if HasKey(b, k) then Lookup(b, k) else Lookup(a, k)
    decreases |b|
  {
    if |b| > 0 {
      KeysCons(b);
      LookupMerge(Assign(a, b[0].key, b[0].val), b[1..], k);
      LookupAssign(a, b[0].key, b[0].val, k);
    }
  }

  /** `s.filter(p)`: the elements satisfying `p`, in their original order. */
  function Filter<T(==,!new)>(s: seq<T>, p: T -> bool): (r: seq<T>)
    ensures |r| <= |s|
    ensures forall i :: 0 <= i < |r| ==> p(r[i])
  {
    if |s| == 0 then []
    else (if p(s[0]) then [s[0]] else []) + Filter(s[1..], p)
  }

  /** The filter keeps exactly the elements that satisfy the test. */
  lemma {:induction false} FilterMembers<T(!new)>(s: seq<T>, p: T -> bool)
    ensures forall x :: x in Filter(s, p) <==> x in s && p(x)
  {
    if |s| > 0 {
      FilterMembers(s[1..], p);
      var h := if p(s[0]) then [s[0]] else [];
      assert Filter(s, p) == h + Filter(s[1..], p);
      assert s == [s[0]] + s[1..];
    }
  }

  lemma {:induction false} FilterAll<T(!new)>(s: seq<T>, p: T -> bool)
    requires forall i :: 0 <= i < |s| ==> p(s[i])
    ensures Filter(s, p) == s
  {
    if |s| > 0 {
      FilterAll(s[1..], p);
    }
  }

  /** Filtering distributes over concatenation, so every kept element keeps its place and its repeats. */
  lemma {:induction false} FilterConcat<T(!new)>(a: seq<T>, b: seq<T>, p: T -> bool)
    ensures Filter(a + b, p) == Filter(a, p) + Filter(b, p)
    decreases |a|
  {
    if |a| == 0 {
      assert a + b == b;
    } else {
      assert (a + b)[0] == a[0] && (a + b)[1..] == a[1..] + b;
      FilterConcat(a[1..], b, p);
    }
  }

  /** Two kept elements come out in the order they went in. */
  lemma FilterKeepsOrder<T(!new)>(s: seq<T>, p: T -> bool, i: int, j: int)
    requires 0 <= i < j < |s| && p(s[i]) && p(s[j])
    ensures exists k, l :: 0 <= k < l < |Filter(s, p)| && Filter(s, p)[k] == s[i] && Filter(s, p)[l] == s[j]
  {
    var front, mid, back := s[..i], s[i + 1..j], s[j + 1..];
    assert s == front + ([s[i]] + (mid + ([s[j]] + back)));
    FilterConcat(front, [s[i]] + (mid + ([s[j]] + back)), p);
    FilterConcat([s[i]], mid + ([s[j]] + back), p);
    FilterConcat(mid, [s[j]] + back, p);
    FilterConcat([s[j]], back, p);
    assert Filter([s[i]], p) == [s[i]] + Filter([s[i]][1..], p);
    assert Filter([s[j]], p) == [s[j]] + Filter([s[j]][1..], p);
    var k := |Filter(front, p)|;
    var l := k + 1 + |Filter(mid, p)|;
    assert Filter(s, p) == Filter(front, p) + ([s[i]] + (Filter(mid, p) + ([s[j]] + Filter(back, p))));
    assert Filter(s, p)[k] == s[i] && Filter(s, p)[l] == s[j];
  }

  /**
    `xs.map(f)` where `f` may throw: every result in order, or the error of
    the first element whose call throws (the later ones are never called).
   */
  function MapAll<A(!new), B>(xs: seq<A>, f: A -> Result<B>): (res: Result<seq<B>>)
    ensures res.Ok? <==> forall i :: 0 <= i < |xs| ==> f(xs[i]).Ok?
    ensures res.Ok? ==> |res.value| == |xs| && forall i :: 0 <= i < |xs| ==> Ok(res.value[i]) == f(xs[i])
    ensures res.Thrown? ==> exists i :: 0 <= i < |xs| && f(xs[i]) == Thrown(res.error) && forall j :: 0 <= j < i ==> f(xs[j]).Ok?
  {
    if |xs| == 0 then Ok([])
    else match f(xs[0])
      case Thrown(e) => Thrown(e)
      case Ok(y) =>
        match MapAll(xs[1..], f)
        case Thrown(e) =>
          var i :| 0 <= i < |xs[1..]| && f(xs[1..][i]) == Thrown(e) && forall j :: 0 <= j < i ==> f(xs[1..][j]).Ok?;
          assert f(xs[i + 1]) == Thrown(e) && forall j :: 0 <= j < i + 1 ==> f(xs[j]).Ok?;
          Thrown(e)
        case Ok(ys) => Ok([y] + ys)
  }

  /** An integer counter field read as `v || fallback` when `v` is a number. */
  function NumOr(v: Value, fallback: int): (r: int)
    ensures v.Num? && v.n != 0 ==> r == v.n
    ensures !Truthy(v) ==> r == fallback
  {
    if v.Num? && v.n != 0 then v.n else fallback
  }
}
