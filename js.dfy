/**
 * The slice of JavaScript's value semantics the API relies on: truthiness,
 * property reads, `String.prototype.trim`, `split`/`join` on one-character
 * separators, and the unary `+` coercion of a string to a number.
 */
module Js {
  import opened Wrappers

  /**
   * A JSON request body value. Numbers are exact reals (JavaScript's double
   * rounding is not modelled); `NaN` is kept apart because it is falsy.
   */
  datatype JsValue =
    | Undefined
    | Null
    | Bool(b: bool)
    | Num(n: real)
    | NaN
    | Str(s: string)
    | Arr(items: seq<JsValue>)
    | Obj(fields: map<string, JsValue>)

  /** JavaScript truthiness: `undefined`, `null`, `false`, `0`, `NaN` and `''` are falsy. */
  predicate Truthy(v: JsValue) {
    match v
    case Undefined => false
    case Null => false
    case Bool(b) => b
    case Num(n) => n != 0.0
    case NaN => false
    case Str(s) => s != ""
    case Arr(_) => true
    case Obj(_) => true
  }

  /** `v[key]` on a value that is not `undefined` or `null`: only objects have own named properties here. */
  function Get(v: JsValue, key: string): (r: JsValue)
    ensures !v.Obj? ==> r == Undefined
    ensures v.Obj? && key !in v.fields ==> r == Undefined
    ensures v.Obj? && key in v.fields ==> r == v.fields[key]
  {
    if v.Obj? && key in v.fields then v.fields[key] else Undefined
  }

  /** A value of an Express query-string mapping: a string, a repeated key, or a bracketed sub-object. */
  datatype QueryValue =
    | QStr(s: string)
    | QList(items: seq<string>)
    | QObj(entries: map<string, string>)

  /** Truthiness of `query[key]`; an absent key reads as `undefined`. */
  predicate QueryTruthy(v: Option<QueryValue>) {
    v.Some? && (v.value.QStr? ==> v.value.s != "")
  }

  // ---------------------------------------------------------------------
  // Whitespace and trim
  // ---------------------------------------------------------------------

  /** ECMAScript WhiteSpace and LineTerminator code points (what `trim` and `Number` strip). */
  predicate IsWhitespace(c: char) {
    c == '\t' || c == '\n' || c == '\U{B}' || c == '\U{C}' || c == '\r' || c == ' '
    || c == '\U{A0}' || c == '\U{1680}' || ('\U{2000}' <= c <= '\U{200A}')
    || c == '\U{2028}' || c == '\U{2029}' || c == '\U{202F}' || c == '\U{205F}'
    || c == '\U{3000}' || c == '\U{FEFF}'
  }

  function TrimStart(s: string): (r: string)
    ensures |r| <= |s| && r == s[|s| - |r|..]
    ensures forall i :: 0 <= i < |s| - |r| ==> IsWhitespace(s[i])
    ensures r == [] || !IsWhitespace(r[0])
  {
    if s != [] && IsWhitespace(s[0]) then
      var r := TrimStart(s[1..]);
      assert s[|s| - |r|..] == s[1..][|s| - 1 - |r|..];
      assert forall i :: 1 <= i < |s| - |r| ==> s[i] == s[1..][i - 1];
      r
    else s
  }

  function TrimEnd(s: string): (r: string)
    ensures |r| <= |s| && r == s[..|r|]
    ensures forall i :: |r| <= i < |s| ==> IsWhitespace(s[i])
    ensures r == [] || !IsWhitespace(r[|r| - 1])
  {
    if s != [] && IsWhitespace(s[|s| - 1]) then TrimEnd(s[..|s| - 1]) else s
  }

  /** `s.trim()`: the longest slice of `s` that neither starts nor ends with whitespace. */
  function Trim(s: string): (r: string)
    ensures r == [] || (!IsWhitespace(r[0]) && !IsWhitespace(r[|r| - 1]))
    ensures (forall i :: 0 <= i < |s| ==> !IsWhitespace(s[i])) ==> r == s
  {
    TrimEnd(TrimStart(s))
  }

  /** `trim` removes only whitespace, and only from the two ends: the result is a slice of `s`. */
  lemma TrimIsSlice(s: string)
    ensures exists i, j ::
              0 <= i <= j <= |s| && Trim(s) == s[i..j]
              && (forall k :: 0 <= k < i || j <= k < |s| ==> IsWhitespace(s[k]))
  {
    var a := TrimStart(s);
    var r := TrimEnd(a);
    var i := |s| - |a|;
    var j := i + |r|;
    assert r == s[i..j] by { assert a == s[i..] && r == a[..|r|]; }
    forall k | 0 <= k < i || j <= k < |s|
      ensures IsWhitespace(s[k])
    {
      if j <= k { assert s[k] == a[k - i]; }
    }
    assert Trim(s) == s[i..j];
  }

  /** A natural number in decimal digits, as `String(n)` renders it. */
  function DecimalString(n: nat): (r: string)
    ensures r != [] && forall i :: 0 <= i < |r| ==> '0' <= r[i] <= '9'
  {
    var digit := ['0' + (n % 10) as char];
    if n < 10 then digit else DecimalString(n / 10) + digit
  }

  // ---------------------------------------------------------------------
  // split and join
  // ---------------------------------------------------------------------

  /** `s.split(sep)` for a one-character separator: never empty, and no part holds `sep`. */
  function Split(s: string, sep: char): (parts: seq<string>)
    ensures |parts| >= 1
    ensures forall i :: 0 <= i < |parts| ==> sep !in parts[i]
  {
    if s == [] then [""]
    else
      var rest := Split(s[1..], sep);
      if s[0] == sep then [""] + rest else [[s[0]] + rest[0]] + rest[1..]
  }

  /** `parts.join(sep)`. */
  function Join(parts: seq<string>, sep: string): string {
    if |parts| == 0 then ""
    else if |parts| == 1 then parts[0]
    else parts[0] + sep + Join(parts[1..], sep)
  }

  /** Every occurrence of `c` in `s` replaced by `d`, everything else in place. */
  function ReplaceChar(s: string, c: char, d: char): (r: string)
    ensures |r| == |s|
    ensures forall i :: 0 <= i < |s| ==> r[i] == (if s[i] == c then d else s[i])
  {
    if s == [] then [] else [if s[0] == c then d else s[0]] + ReplaceChar(s[1..], c, d)
  }

  /** Splitting on `c` and joining with `d` replaces each `c` by `d`. */
  lemma {:induction false} JoinSplitReplaces(s: string, c: char, d: char)
    ensures Join(Split(s, c), [d]) == ReplaceChar(s, c, d)
  {
    if s != [] {
      JoinSplitReplaces(s[1..], c, d);
      var rest := Split(s[1..], c);
      if s[0] == c {
        assert Split(s, c) == [""] + rest;
      } else if |rest| == 1 {
        assert Split(s, c) == [[s[0]] + rest[0]];
      } else {
        assert Split(s, c) == [[s[0]] + rest[0]] + rest[1..];
        assert Join(rest, [d]) == rest[0] + [d] + Join(rest[1..], [d]);
      }
    }
  }

  /** Splitting on `c` and joining with `c` gives back the string. */
  lemma JoinSplitRoundTrip(s: string, c: char)
    ensures Join(Split(s, c), [c]) == s
  {
    JoinSplitReplaces(s, c, c);
  }

  /** Splitting a part that holds no separator in front of some tail glues the part to the tail's first piece. */
  lemma {:induction false} SplitPrefix(p: string, tail: string, c: char)
    requires c !in p
    ensures Split(p + tail, c) == [p + Split(tail, c)[0]] + Split(tail, c)[1..]
  {
    if p != [] {
      SplitPrefix(p[1..], tail, c);
      var t := Split(tail, c);
      assert (p + tail)[1..] == p[1..] + tail;
      var rest := Split(p[1..] + tail, c);
      assert rest[0] == p[1..] + t[0] && rest[1..] == t[1..];
      assert (p + tail)[0] == p[0] && p[0] != c;
      assert Split(p + tail, c) == [[p[0]] + rest[0]] + rest[1..];
      assert [p[0]] + (p[1..] + t[0]) == p + t[0];
      assert [p[0]] + rest[0] == p + t[0];
    } else {
      var t := Split(tail, c);
      assert p + tail == tail && p + t[0] == t[0];
      assert t == [t[0]] + t[1..];
    }
  }

  /** Joining separator-free parts with `c` and splitting on `c` gives back the parts. */
  lemma {:induction false} SplitJoinRoundTrip(parts: seq<string>, c: char)
    requires |parts| >= 1
    requires forall i :: 0 <= i < |parts| ==> c !in parts[i]
    ensures Split(Join(parts, [c]), c) == parts
  {
    if |parts| == 1 {
      SplitPrefix(parts[0], "", c);
      assert parts[0] + "" == parts[0];
    } else {
      SplitJoinRoundTrip(parts[1..], c);
      var tail := [c] + Join(parts[1..], [c]);
      SplitPrefix(parts[0], tail, c);
      assert Join(parts, [c]) == parts[0] + tail;
      assert tail[1..] == Join(parts[1..], [c]);
      assert Split(tail, c) == [""] + parts[1..];
      assert parts[0] + Split(tail, c)[0] == parts[0];
      assert Split(tail, c)[1..] == parts[1..];
      assert parts == [parts[0]] + parts[1..];
    }
  }

  // ---------------------------------------------------------------------
  // Unary plus on strings
  // ---------------------------------------------------------------------

  predicate IsDigit(c: char) { '0' <= c <= '9' }

  function LeadingDigits(s: string): (d: string)
    ensures |d| <= |s| && d == s[..|d|]
    ensures forall i :: 0 <= i < |d| ==> IsDigit(d[i])
    ensures |d| == |s| || !IsDigit(s[|d|])
  {
    if s != [] && IsDigit(s[0]) then [s[0]] + LeadingDigits(s[1..]) else []
  }

  function Pow10(n: nat): (r: nat)
    ensures r >= 1
  {
    if n == 0 then 1 else 10 * Pow10(n - 1)
  }

  /** The value of a string of decimal digits, most significant first. */
  function DigitsValue(d: string): nat
    requires forall i :: 0 <= i < |d| ==> IsDigit(d[i])
  {
    if d == [] then 0
    else
      var last := d[|d| - 1];
      assert IsDigit(last);
      10 * DigitsValue(d[..|d| - 1]) + (last as int - '0' as int)
  }

  /** A character that may occur in a decimal numeral the model accepts. */
  predicate IsNumeralChar(c: char) { IsDigit(c) || c == '.' || c == '+' || c == '-' }

  /** An unsigned decimal numeral: digits, optionally a point and more digits, not the point alone. */
  function ParseUnsigned(u: string): (r: Option<real>)
    ensures r.Some? ==> forall i :: 0 <= i < |u| ==> IsDigit(u[i]) || u[i] == '.'
    ensures r.Some? ==> r.value >= 0.0
  {
    var ip := LeadingDigits(u);
    var rest := u[|ip|..];
    if rest == [] then
      if ip == [] then None else Some(DigitsValue(ip) as real)
    else if rest[0] != '.' then None
    else
      var fp := rest[1..];
      if !(forall i :: 0 <= i < |fp| ==> IsDigit(fp[i])) || (ip == [] && fp == []) then None
      else
        NumeralParts(u, ip, fp);
        Some(DigitsValue(ip) as real + DigitsValue(fp) as real / Pow10(|fp|) as real)
  }

  /** The characters of `ip + "." + fp`, where both parts are digits. */
  lemma NumeralParts(u: string, ip: string, fp: string)
    requires |ip| < |u| && ip == u[..|ip|] && u[|ip|] == '.' && fp == u[|ip| + 1..]
    requires forall i :: 0 <= i < |ip| ==> IsDigit(ip[i])
    requires forall i :: 0 <= i < |fp| ==> IsDigit(fp[i])
    ensures forall i :: 0 <= i < |u| ==> IsDigit(u[i]) || u[i] == '.'
  {
    forall i | 0 <= i < |u| ensures IsDigit(u[i]) || u[i] == '.' {
      if i < |ip| {
        assert u[i] == ip[i];
      } else if i > |ip| {
        assert u[i] == fp[i - |ip| - 1];
      }
    }
  }

  function ParseDecimal(t: string): (r: Option<real>)
    ensures r.Some? ==> forall i :: 0 <= i < |t| ==> IsNumeralChar(t[i])
  {
    if t != [] && t[0] == '+' then
      var r := ParseUnsigned(t[1..]);
      assert r.Some? ==> forall i :: 1 <= i < |t| ==> t[i] == t[1..][i - 1];
      r
    else if t != [] && t[0] == '-' then
      var r := ParseUnsigned(t[1..]);
      assert r.Some? ==> forall i :: 1 <= i < |t| ==> t[i] == t[1..][i - 1];
      if r.Some? then Some(-r.value) else None
    else ParseUnsigned(t)
  }

  /**
   * `+s` for a string: surrounding whitespace is ignored, a blank string is 0,
   * a signed decimal numeral is its value, anything else is NaN (`None`).
   */
  function ToNumber(s: string): (r: Option<real>)
    ensures Trim(s) == [] ==> r == Some(0.0)
    ensures r.Some? ==> forall i :: 0 <= i < |Trim(s)| ==> IsNumeralChar(Trim(s)[i])
  {
    var t := Trim(s);
    if t == [] then Some(0.0) else ParseDecimal(t)
  }

  /** A string without whitespace trims to itself. */
  lemma TrimNoWhitespace(d: string)
    requires forall i :: 0 <= i < |d| ==> !IsWhitespace(d[i])
    ensures Trim(d) == d
  {
  }

  /** A non-empty string of digits is an unsigned numeral with its decimal value. */
  lemma ParseUnsignedOfDigits(d: string)
    requires d != [] && forall i :: 0 <= i < |d| ==> IsDigit(d[i])
    ensures ParseUnsigned(d) == Some(DigitsValue(d) as real)
  {
    var ld := LeadingDigits(d);
    assert ld == d;
    assert d[|ld|..] == [];
  }

  /** A non-empty string of digits coerces to its decimal value. */
  lemma ToNumberOfDigits(d: string)
    requires d != [] && forall i :: 0 <= i < |d| ==> IsDigit(d[i])
    ensures ToNumber(d) == Some(DigitsValue(d) as real)
  {
    assert forall i :: 0 <= i < |d| ==> !IsWhitespace(d[i]) by {
      forall i | 0 <= i < |d| ensures !IsWhitespace(d[i]) { assert IsDigit(d[i]); }
    }
    TrimNoWhitespace(d);
    assert d[0] != '+' && d[0] != '-' by { assert IsDigit(d[0]); }
    ParseUnsignedOfDigits(d);
  }

  /** `+v` for a query-string value: arrays go through `toString` (a comma join), objects are NaN. */
  function CoerceQuery(v: Option<QueryValue>): (r: Option<real>)
    ensures v.None? || v.value.QObj? ==> r.None?
  {
    match v
    case None => None
    case Some(QStr(s)) => ToNumber(s)
    case Some(QList(items)) => ToNumber(Join(items, ","))
    case Some(QObj(_)) => None
  }

  /** `+v || fallback`: the coerced number unless it is 0 or NaN. */
  function NumberOr(v: Option<QueryValue>, fallback: real): (r: real)
    ensures CoerceQuery(v).Some? && CoerceQuery(v).value != 0.0 ==> r == CoerceQuery(v).value
    ensures CoerceQuery(v).None? || CoerceQuery(v).value == 0.0 ==> r == fallback
  {
    var n := CoerceQuery(v);
    if n.Some? && n.value != 0.0 then n.value else fallback
  }
}
