/**
  The string operations the client performs: prefix tests, `replace` with a
  global one-character pattern, `split(...)` keeping the last part, the
  capital-letter spacing of class names, `trim`, and number/value to string
  conversion.
 */
module JsString {
  import opened JsValue

  predicate StartsWith(s: string, prefix: string) {
    |prefix| <= |s| && s[..|prefix|] == prefix
  }

  lemma PrefixedStartsWith(prefix: string, rest: string)
    ensures StartsWith(prefix + rest, prefix)
  {
    assert (prefix + rest)[..|prefix|] == prefix;
  }

  /** Two strings with different leading characters cannot share a prefix. */
  lemma PrefixesDiffer(s: string, p: string, q: string, k: nat)
    requires StartsWith(s, p) && k < |p| && k < |q| && p[k] != q[k]
    ensures !StartsWith(s, q)
  {
    assert s[k] == p[k];
  }

  /** `s.replace(/<from>/g, to)` for a one-character pattern. */
  function ReplaceChar(s: string, from: char, to: char): (r: string)
    ensures |r| == |s|
    ensures forall i :: 0 <= i < |s| ==> r[i] == (if s[i] == from then to else s[i])
  {
    if |s| == 0 then ""
    else [if s[0] == from then to else s[0]] + ReplaceChar(s[1..], from, to)
  }

  lemma ReplaceCharRemoves(s: string, from: char, to: char)
    requires from != to
    ensures from !in ReplaceChar(s, from, to)
  {
  }

  /**
    `s.split(sep)` followed by taking the last part: the longest suffix of
    `s` that contains no `sep`.
   */
  function LastSegment(s: string, sep: char): (r: string)
    ensures |r| <= |s| && s[|s| - |r|..] == r
    ensures sep !in r
    ensures |r| == |s| || s[|s| - |r| - 1] == sep
  {
    if |s| == 0 then ""
    else if s[|s| - 1] == sep then ""
    else
      var t := LastSegment(s[..|s| - 1], sep);
      assert s[..|s| - 1][|s| - 1 - |t|..] == t;
      assert s[|s| - |t| - 1..] == t + [s[|s| - 1]];
      t + [s[|s| - 1]]
  }

  lemma LastSegmentWithoutSeparator(s: string, sep: char)
    requires sep !in s
    ensures LastSegment(s, sep) == s
  {
  }

  predicate IsUpper(c: char) {
    'A' <= c <= 'Z'
  }

  /** `s.replace(/([A-Z])/g, ' $1')`: a space before every ASCII capital. */
  function SpaceBeforeCapitals(s: string): (r: string)
    ensures |r| == |s| + CountUpper(s)
  {
    if |s| == 0 then ""
    else (if IsUpper(s[0]) then [' ', s[0]] else [s[0]]) + SpaceBeforeCapitals(s[1..])
  }

  function CountUpper(s: string): nat {
    if |s| == 0 then 0 else (if IsUpper(s[0]) then 1 else 0) + CountUpper(s[1..])
  }

  /** Removes one space in front of each capital: the left inverse of `SpaceBeforeCapitals`. */
  function DropSpaceBeforeCapitals(r: string): string
  {
    if |r| == 0 then ""
    else if |r| >= 2 && r[0] == ' ' && IsUpper(r[1]) then [r[1]] + DropSpaceBeforeCapitals(r[2..])
    else [r[0]] + DropSpaceBeforeCapitals(r[1..])
  }

  /** No character is lost or changed by the spacing: it can be undone exactly. */
  lemma {:induction false} SpacingRoundTrip(s: string)
    ensures DropSpaceBeforeCapitals(SpaceBeforeCapitals(s)) == s
  {
    if |s| > 0 {
      SpacingRoundTrip(s[1..]);
      var t := SpaceBeforeCapitals(s[1..]);
      if IsUpper(s[0]) {
        assert SpaceBeforeCapitals(s) == [' ', s[0]] + t;
        assert ([' ', s[0]] + t)[2..] == t;
      } else {
        assert SpaceBeforeCapitals(s) == [s[0]] + t;
        assert ([s[0]] + t)[1..] == t;
        if |t| > 0 && s[0] == ' ' {
          assert !IsUpper(t[0]) by {
            if IsUpper(s[1]) {
              assert t[0] == ' ';
            } else {
              assert t[0] == s[1];
            }
          }
        }
      }
    }
  }

  /** The characters `String.prototype.trim` removes. */
  predicate IsJsSpace(c: char) {
    c == ' ' || c == '\t' || c == '\n' || c == '\r' || c == '\U{000B}' || c == '\U{000C}'
    || c == '\U{00A0}' || c == '\U{1680}' || ('\U{2000}' <= c <= '\U{200A}')
    || c == '\U{2028}' || c == '\U{2029}' || c == '\U{202F}' || c == '\U{205F}'
    || c == '\U{3000}' || c == '\U{FEFF}'
  }

  function TrimStart(s: string): (r: string)
    ensures |r| <= |s| && r == s[|s| - |r|..]
    ensures forall i :: 0 <= i < |s| - |r| ==> IsJsSpace(s[i])
    ensures |r| > 0 ==> !IsJsSpace(r[0])
  {
    if |s| > 0 && IsJsSpace(s[0]) then TrimStart(s[1..]) else s
  }

  function TrimEnd(s: string): (r: string)
    ensures |r| <= |s| && r == s[..|r|]
    ensures forall i :: |r| <= i < |s| ==> IsJsSpace(s[i])
    ensures |r| > 0 ==> !IsJsSpace(r[|r| - 1])
  {
    if |s| > 0 && IsJsSpace(s[|s| - 1]) then TrimEnd(s[..|s| - 1]) else s
  }

  /** `s.trim()`: the middle slice of `s` that neither starts nor ends with white space. */
  function Trim(s: string): (r: string)
    ensures exists i, j ::
              && 0 <= i <= j <= |s| && r == s[i..j]
              && (forall k :: 0 <= k < i ==> IsJsSpace(s[k]))
              && (forall k :: j <= k < |s| ==> IsJsSpace(s[k]))
    ensures |r| > 0 ==> !IsJsSpace(r[0]) && !IsJsSpace(r[|r| - 1])
  {
    var t := TrimStart(s);
    var r := TrimEnd(t);
    var i := |s| - |t|;
    assert r == s[i..i + |r|];
    r
  }

  lemma {:induction false} TrimOfUnpadded(s: string)
    requires |s| > 0 ==> !IsJsSpace(s[0]) && !IsJsSpace(s[|s| - 1])
    ensures Trim(s) == s
  {
  }

  const Digits: string := "0123456789"

  /** Decimal notation of a natural number, without leading zeros. */
  function NatToDecimal(n: nat): (r: string)
    ensures |r| >= 1
    ensures forall i :: 0 <= i < |r| ==> '0' <= r[i] <= '9'
    ensures |r| > 1 ==> r[0] != '0'
  {
    if n < 10 then [Digits[n]]
    else NatToDecimal(n / 10) + [Digits[n % 10]]
  }

  /** Reads a string of decimal digits. */
  function ParseDecimal(s: string): nat
    requires forall i :: 0 <= i < |s| ==> '0' <= s[i] <= '9'
  {
    if |s| == 0 then 0
    else ParseDecimal(s[..|s| - 1]) * 10 + (s[|s| - 1] as int - '0' as int)
  }

  lemma {:induction false} DecimalRoundTrip(n: nat)
    ensures ParseDecimal(NatToDecimal(n)) == n
  {
    if n >= 10 {
      DecimalRoundTrip(n / 10);
      var r := NatToDecimal(n);
      assert r[..|r| - 1] == NatToDecimal(n / 10);
    }
  }

  /** `String(n)` for an integer. */
  function IntToDecimal(n: int): (r: string)
    ensures |r| >= 1
    ensures n < 0 <==> r[0] == '-'
  {
    if n < 0 then "-" + NatToDecimal(-n) else NatToDecimal(n)
  }

  function Join(parts: seq<string>, sep: string): string
  {
    if |parts| == 0 then ""
    else if |parts| == 1 then parts[0]
    else parts[0] + sep + Join(parts[1..], sep)
  }

  /** `String(v)`, as a template literal `${v}` converts a value. */
  function ToStr(v: Value): (r: string)
    ensures v.Str? ==> r == v.s
    decreases v
  {
    match v
    case Undefined => "undefined"
    case Null => "null"
    case Bool(b) => if b then "true" else "false"
    case Num(n) => IntToDecimal(n)
    case Str(s) => s
    case Arr(es) =>
      Join(seq(|es|, i requires 0 <= i < |es| =>
        if es[i].Null? || es[i].Undefined? then "" else ToStr(es[i])), ",")
    case Obj(_) => "[object Object]"
    case ActionInst(_) => "[object Object]"
  }

  /**
    `{...v}`: the own enumerable properties of `v` as a fresh plain object.
    Arrays and strings spread their elements under decimal index keys, a
    builder instance spreads its one own property `_data`, and the other
    primitives spread nothing.
   */
  function Spread(v: Value): (r: Object)
    ensures v.Obj? ==> r == v.props
    ensures v.Arr? ==> |r| == |v.elems|
    ensures v.Str? ==> |r| == |v.s|
    ensures v.Undefined? || v.Null? || v.Bool? || v.Num? ==> r == []
  {
    match v
    case Obj(ps) => ps
    case ActionInst(fs) => [Prop("_data", Obj(fs))]
    case Arr(es) => seq(|es|, i requires 0 <= i < |es| => Prop(NatToDecimal(i), es[i]))
    case Str(s) => seq(|s|, i requires 0 <= i < |s| => Prop(NatToDecimal(i), Str([s[i]])))
    case _ => []
  }
}
