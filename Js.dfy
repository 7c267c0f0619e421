/** The slice of JavaScript's runtime semantics that the dashboard's code relies on:
    parsed JSON values, truthiness (`if (x)`, `a || b`, `a && b`), property reads,
    `String.prototype.split` on a one-character separator, `Array.prototype.join`,
    `String.prototype.trim`, and the string conversion `String(v)` used by
    template literals and `localStorage.setItem`. */
module Js {

  datatype Option<+T> = None | Some(value: T)

  datatype Result<+T, +E> = Ok(value: T) | Err(error: E)

  /** What a `throw` in the modelled code can carry. */
  datatype Exception =
    | TypeError             // a property read on null or undefined, or a call of a missing method
    | SyntaxError           // `response.json()` on a body that is not JSON
    | FetchFailed           // `fetch` rejected: no response was received
    | Error(message: string) // `new Error(message)`

  /** A JavaScript value as produced by `JSON.parse`, plus `undefined`.
      Numbers are integers; objects are maps from keys to values. */
  datatype Value =
    | Undefined
    | Null
    | Bool(b: bool)
    | Num(n: int)
    | Str(s: string)
    | Arr(items: seq<Value>)
    | Obj(fields: map<string, Value>)

  /** `Boolean(v)`: the falsy values are undefined, null, false, 0 and "". */
  predicate Truthy(v: Value) {
    match v
    case Undefined | Null => false
    case Bool(b) => b
    case Num(n) => n != 0
    case Str(s) => s != ""
    case Arr(_) | Obj(_) => true
  }

  /** `a || b` */
  function Or(a: Value, b: Value): Value {
    if Truthy(a) then a else b
  }

  /** The own field `key` of an object's field map, `undefined` when missing. */
  function Field(fields: map<string, Value>, key: string): Value {
    if key in fields then fields[key] else Undefined
  }

  /** The property read `v.key`. Reading from null or undefined throws a TypeError;
      any other value yields its own field, or undefined. */
  function Get(v: Value, key: string): (r: Result<Value, Exception>)
    ensures r.Err? <==> v.Undefined? || v.Null?
    ensures r.Err? ==> r.error == TypeError
    ensures v.Obj? && key in v.fields ==> r == Ok(v.fields[key])
    ensures r.Ok? && r.value != Undefined ==> v.Obj? && key in v.fields && r.value == v.fields[key]
  {
    match v
    case Undefined | Null => Err(TypeError)
    case Obj(fields) => Ok(Field(fields, key))
    case _ => Ok(Undefined)
  }

  /** `typeof v === 'object'`, which holds of null and of arrays too. */
  predicate IsObjectType(v: Value) {
    v.Null? || v.Arr? || v.Obj?
  }

  /** `parts.join(sep)` for strings: the empty list joins to "". */
  function Join(parts: seq<string>, sep: string): string {
    if |parts| == 0 then ""
    else if |parts| == 1 then parts[0]
    else parts[0] + sep + Join(parts[1..], sep)
  }

  /** `s.split(sep)` for a one-character separator: the pieces between separators,
      always at least one (so "" splits to [""]). */
  function Split(s: string, sep: char): (parts: seq<string>)
    ensures |parts| >= 1
    ensures forall p <- parts :: sep !in p
    ensures Join(parts, [sep]) == s
  {
    if s == [] then [""]
    else
      var rest := Split(s[1..], sep);
      if s[0] == sep then
        assert ([""] + rest)[1..] == rest;
        [""] + rest
      else
        var head := [s[0]] + rest[0];
        assert ([head] + rest[1..])[1..] == rest[1..];
        assert |rest| > 1 ==> Join(rest, [sep]) == rest[0] + [sep] + Join(rest[1..], [sep]);
        assert |rest| > 1 ==> head + [sep] + Join(rest[1..], [sep]) == [s[0]] + (rest[0] + [sep] + Join(rest[1..], [sep]));
        [head] + rest[1..]
  }

  /** Splitting a string that starts with a separator-free piece and a separator
      yields that piece followed by the split of the rest. */
  lemma {:induction false} SplitAfterPiece(a: string, sep: char, b: string)
    requires sep !in a
    ensures Split(a + [sep] + b, sep) == [a] + Split(b, sep)
  {
    if a == [] {
      assert a + [sep] + b == [sep] + b;
      assert ([sep] + b)[1..] == b;
    } else {
      var s := a + [sep] + b;
      assert s[0] == a[0] && s[1..] == a[1..] + [sep] + b;
      SplitAfterPiece(a[1..], sep, b);
      assert [a[0]] + a[1..] == a;
    }
  }

  /** A separator-free string splits to itself alone. */
  lemma SplitWithoutSeparator(a: string, sep: char)
    requires sep !in a
    ensures Split(a, sep) == [a]
  {
  }

  /** `split` undoes `join` whenever no piece contains the separator. */
  lemma {:induction false} SplitJoin(parts: seq<string>, sep: char)
    requires |parts| >= 1
    requires forall p <- parts :: sep !in p
    ensures Split(Join(parts, [sep]), sep) == parts
  {
    if |parts| == 1 {
      SplitWithoutSeparator(parts[0], sep);
    } else {
      SplitJoin(parts[1..], sep);
      SplitAfterPiece(parts[0], sep, Join(parts[1..], [sep]));
      assert [parts[0]] + parts[1..] == parts;
    }
  }

  /** The characters `String.prototype.trim` strips: WhiteSpace and LineTerminator of ECMA-262. */
  predicate IsSpace(c: char) {
    || c == ' ' || c == '\t' || c == '\n' || c == '\r'
    || c == '\U{000B}' || c == '\U{000C}' || c == '\U{00A0}' || c == '\U{1680}'
    || ('\U{2000}' <= c <= '\U{200A}')
    || c == '\U{2028}' || c == '\U{2029}' || c == '\U{202F}' || c == '\U{205F}'
    || c == '\U{3000}' || c == '\U{FEFF}'
  }

  /** No leading and no trailing space. */
  predicate IsTrimmed(s: string) {
    s == [] || (!IsSpace(s[0]) && !IsSpace(s[|s| - 1]))
  }

  predicate AllSpace(s: string) {
    forall c <- s :: IsSpace(c)
  }

  function TrimEnd(s: string): (r: string)
    ensures |r| <= |s|
    ensures r == s[..|r|]
    ensures r == [] || !IsSpace(r[|r| - 1])
    ensures AllSpace(s[|r|..])
  {
    if s != [] && IsSpace(s[|s| - 1]) then
      var r := TrimEnd(s[..|s| - 1]);
      assert s[..|s| - 1][|r|..] + [s[|s| - 1]] == s[|r|..];
      r
    else s
  }

  /** `s.trim()`: leading space dropped one character at a time, then trailing space;
      the result has neither, and is `s` itself when `s` already has none. */
  function Trim(s: string): (r: string)
    ensures IsTrimmed(r)
    ensures |r| <= |s|
    ensures IsTrimmed(s) ==> r == s
  {
    if s != [] && IsSpace(s[0]) then Trim(s[1..]) else TrimEnd(s)
  }

  /** `s` is `k` characters of space, then `r`, then space to the end. */
  predicate Surrounds(s: string, k: nat, r: string) {
    k + |r| <= |s| && AllSpace(s[..k]) && s[k..k + |r|] == r && AllSpace(s[k + |r|..])
  }

  /** A space before a surrounded string shifts its position by one. */
  lemma SurroundsAfterSpace(s: string, k: nat, r: string)
    requires s != [] && IsSpace(s[0]) && Surrounds(s[1..], k, r)
    ensures Surrounds(s, k + 1, r)
  {
    var t := s[1..];
    assert s[..k + 1] == [s[0]] + t[..k];
    assert s[k + 1..k + 1 + |r|] == t[k..k + |r|];
    assert s[k + 1 + |r|..] == t[k + |r|..];
  }

  /** The value of `trim`: `s` is a run of space, then the result, then a run of
      space. With `IsTrimmed` of the result this fixes it uniquely. */
  lemma {:induction false} TrimStripsSpace(s: string)
    ensures exists k: nat :: Surrounds(s, k, Trim(s))
  {
    var r := Trim(s);
    if s != [] && IsSpace(s[0]) {
      TrimStripsSpace(s[1..]);
      var k: nat :| Surrounds(s[1..], k, r);
      SurroundsAfterSpace(s, k, r);
    } else {
      assert s[..0] == [] && s[0..|r|] == r;
      assert Surrounds(s, 0, r);
    }
  }

  /** Trailing space after a string that ends in a non-space is exactly what
      `TrimEnd` removes. */
  lemma {:induction false} TrimEndBeforeSpace(f: string, w: string)
    requires f != [] && !IsSpace(f[|f| - 1]) && AllSpace(w)
    ensures TrimEnd(f + w) == f
  {
    if w == [] {
      assert f + w == f;
    } else {
      var s := f + w;
      assert s[|s| - 1] == w[|w| - 1];
      assert s[..|s| - 1] == f + w[..|w| - 1];
      TrimEndBeforeSpace(f, w[..|w| - 1]);
    }
  }

  /** Conversely, a non-empty trimmed string surrounded by space is what `trim`
      returns. */
  lemma {:induction false} TrimUnique(s: string, k: nat, r: string)
    requires Surrounds(s, k, r) && IsTrimmed(r) && r != []
    ensures Trim(s) == r
  {
    if k > 0 {
      assert s[0] in s[..k];
      assert s[1..][..k - 1] == s[1..k];
      assert s[1..][k - 1..k - 1 + |r|] == s[k..k + |r|];
      assert s[1..][k - 1 + |r|..] == s[k + |r|..];
      TrimUnique(s[1..], k - 1, r);
    } else {
      assert s == r + s[|r|..];
      TrimEndBeforeSpace(r, s[|r|..]);
    }
  }

  /** Trimming never introduces a character. */
  lemma {:induction false} TrimKeepsCharsOut(s: string, c: char)
    requires c !in s
    ensures c !in Trim(s)
  {
    if s != [] && IsSpace(s[0]) {
      TrimKeepsCharsOut(s[1..], c);
    } else {
      var t := TrimEnd(s);
      assert t == s[..|t|];
    }
  }

  /** Trimming removes a run of leading space from a non-empty trimmed string. */
  lemma {:induction false} TrimAfterSpace(w: string, f: string)
    requires AllSpace(w) && IsTrimmed(f) && f != ""
    ensures Trim(w + f) == f
  {
    if w != [] {
      assert (w + f)[1..] == w[1..] + f;
      TrimAfterSpace(w[1..], f);
    } else {
      assert w + f == f;
    }
  }

  /** A string of spaces trims to the empty string. */
  lemma {:induction false} TrimAllSpace(w: string)
    requires AllSpace(w)
    ensures Trim(w) == ""
  {
    if w != [] {
      TrimAllSpace(w[1..]);
    }
  }

  /** `s.includes(t)` for strings: `t` occurs in `s` at some position. */
  predicate Includes(s: string, t: string) {
    |t| <= |s| && (s[..|t|] == t || (s != [] && Includes(s[1..], t)))
  }

  function DigitChar(d: nat): char
    requires d < 10
  {
    "0123456789"[d]
  }

  function NatToDecimal(n: nat): string
  {
    if n < 10 then [DigitChar(n)] else NatToDecimal(n / 10) + [DigitChar(n % 10)]
  }

  /** `String(v)`: what a template literal `${v}` and `localStorage.setItem` store. */
  function ToJsString(v: Value): string
  {
    match v
    case Undefined => "undefined"
    case Null => "null"
    case Bool(b) => if b then "true" else "false"
    case Num(n) => if n < 0 then "-" + NatToDecimal(-n) else NatToDecimal(n)
    case Str(s) => s
    case Arr(xs) => JoinValues(xs, ",")
    case Obj(_) => "[object Object]"
  }

  /** `xs.join(sep)` for arbitrary values: null and undefined elements become "". */
  function JoinValues(xs: seq<Value>, sep: string): string
  {
    if xs == [] then ""
    else
      var first := if xs[0].Undefined? || xs[0].Null? then "" else ToJsString(xs[0]);
      if |xs| == 1 then first else first + sep + JoinValues(xs[1..], sep)
  }

  /** The JS array of the given strings. */
  function Strings(ss: seq<string>): (vs: seq<Value>)
    ensures |vs| == |ss| && forall i :: 0 <= i < |ss| ==> vs[i] == Str(ss[i])
  {
    if ss == [] then [] else [Str(ss[0])] + Strings(ss[1..])
  }

  /** Joining an array of strings is joining the strings. */
  lemma {:induction false} JoinValuesOfStrings(ss: seq<string>, sep: string)
    ensures JoinValues(Strings(ss), sep) == Join(ss, sep)
  {
    if |ss| > 1 {
      JoinValuesOfStrings(ss[1..], sep);
      assert Strings(ss)[1..] == Strings(ss[1..]);
    }
  }
}
