/** The JavaScript built-ins the front-end relies on, as functions over
    strings and integers: truthiness, `includes`, `startsWith`,
    `toLowerCase`, `String(n)`, `parseInt(s, 10)`, `split`, `join`, `trim`
    and `padStart(2, '0')`. */
module Js {
  import opened Wrappers

  /** A JavaScript number as the code uses it: an integer, or NaN. */
  datatype Number = Num(n: int) | NaN

  /** `String(x)` / `x.toString()` of a number. */
  function NumberToString(x: Number): string {
    match x
    case Num(n) => IntToString(n)
    case NaN => "NaN"
  }

  /** A string is truthy exactly when it is not empty. */
  predicate Truthy(s: string) {
    s != ""
  }

  // ---------------------------------------------------------------- search

  /** `sub` occurs in `s` at index `i`. */
  predicate OccursAt(s: string, sub: string, i: int) {
    0 <= i && i + |sub| <= |s| && s[i..i + |sub|] == sub
  }

  /** `s.includes(sub)`. */
  predicate Includes(s: string, sub: string) {
    exists i | 0 <= i <= |s| - |sub| :: OccursAt(s, sub, i)
  }

  /** `s.startsWith(p)`. */
  predicate StartsWith(s: string, p: string) {
    |p| <= |s| && s[..|p|] == p
  }

  lemma IncludesEmpty(s: string)
    ensures Includes(s, "")
  {
    assert OccursAt(s, "", 0);
  }

  lemma IncludesSelf(s: string)
    ensures Includes(s, s)
  {
    assert OccursAt(s, s, 0);
  }

  /** An occurrence of `b` in `c` carries every occurrence of `a` in `b`. */
  lemma IncludesTransitive(a: string, b: string, c: string)
    requires Includes(b, a) && Includes(c, b)
    ensures Includes(c, a)
  {
    var j :| 0 <= j <= |b| - |a| && OccursAt(b, a, j);
    var i :| 0 <= i <= |c| - |b| && OccursAt(c, b, i);
    forall k | 0 <= k < |a|
      ensures c[i + j + k] == a[k]
    {
      assert b[j..j + |a|][k] == a[k];
      assert c[i..i + |b|][j + k] == b[j + k];
    }
    assert OccursAt(c, a, i + j);
  }

  // ---------------------------------------------------------- case folding

  /** `toLowerCase` on one character; only ASCII letters are folded. */
  function LowerChar(c: char): char {
    if 'A' <= c <= 'Z' then (c as int + 32) as char else c
  }

  /** `s.toLowerCase()`, letter by letter. */
  function ToLower(s: string): (r: string)
    ensures |r| == |s|
    ensures forall i :: 0 <= i < |s| ==> r[i] == LowerChar(s[i])
  {
    if s == [] then [] else [LowerChar(s[0])] + ToLower(s[1..])
  }

  /** Lower-casing keeps every occurrence: a substring of `s` lower-cases to
      a substring of the lower-cased `s`. */
  lemma ToLowerIncludes(s: string, sub: string)
    requires Includes(s, sub)
    ensures Includes(ToLower(s), ToLower(sub))
  {
    var i :| 0 <= i <= |s| - |sub| && OccursAt(s, sub, i);
    var ls, lsub := ToLower(s), ToLower(sub);
    assert ls[i..i + |sub|] == lsub by {
      forall k | 0 <= k < |sub|
        ensures ls[i..i + |sub|][k] == lsub[k]
      {
        assert s[i..i + |sub|][k] == sub[k];
      }
    }
    assert OccursAt(ls, lsub, i);
  }

  lemma ToLowerIdempotent(s: string)
    ensures ToLower(ToLower(s)) == ToLower(s)
  {
  }

  // ------------------------------------------------------ numbers as text

  predicate IsDigit(c: char) {
    '0' <= c <= '9'
  }

  predicate AllDigits(s: string) {
    forall i :: 0 <= i < |s| ==> IsDigit(s[i])
  }

  function DigitChar(d: int): (c: char)
    requires 0 <= d < 10
    ensures IsDigit(c)
  {
    ('0' as int + d) as char
  }

  function DigitValue(c: char): (d: int)
    requires IsDigit(c)
    ensures 0 <= d < 10
  {
    c as int - '0' as int
  }

  /** Decimal digits of a non-negative integer, without leading zeros. */
  function NatToString(n: nat): (r: string)
    ensures 1 <= |r| && AllDigits(r)
    ensures r[0] == '0' ==> n == 0
  {
    if n < 10 then [DigitChar(n)] else NatToString(n / 10) + [DigitChar(n % 10)]
  }

  /** `String(n)` for an integer `n`. */
  function IntToString(n: int): string {
    if n < 0 then "-" + NatToString(-n) else NatToString(n)
  }

  /** The value of a string of decimal digits. */
  function DigitsValue(ds: string): nat
    requires AllDigits(ds)
  {
    if ds == [] then 0 else DigitsValue(ds[..|ds| - 1]) * 10 + DigitValue(ds[|ds| - 1])
  }

  lemma {:induction false} NatToStringValue(n: nat)
    ensures DigitsValue(NatToString(n)) == n
  {
    if n >= 10 {
      var r := NatToString(n);
      assert r[..|r| - 1] == NatToString(n / 10);
      NatToStringValue(n / 10);
    }
  }

  /** Two numbers with the same decimal text are equal. */
  lemma IntToStringInjective(a: int, b: int)
    requires IntToString(a) == IntToString(b)
    ensures a == b
  {
    IntToStringSign(a);
    IntToStringSign(b);
    var x: nat, y: nat := if a < 0 then -a else a, if b < 0 then -b else b;
    assert NatToString(x) == NatToString(y) by {
      if a < 0 {
        assert NatToString(x) == IntToString(a)[1..];
        assert NatToString(y) == IntToString(b)[1..];
      }
    }
    NatToStringValue(x);
    NatToStringValue(y);
  }

  /** The text of a number starts with `-` exactly when it is negative. */
  lemma IntToStringSign(n: int)
    ensures |IntToString(n)| >= 1
    ensures IntToString(n)[0] == '-' <==> n < 0
  {
    if n >= 0 {
      assert IsDigit(NatToString(n)[0]);
    }
  }

  /** The longest prefix of `s` made of decimal digits. */
  function DigitPrefix(s: string): (r: string)
    ensures AllDigits(r) && |r| <= |s| && r == s[..|r|]
    ensures |r| < |s| ==> !IsDigit(s[|r|])
  {
    if s != [] && IsDigit(s[0]) then [s[0]] + DigitPrefix(s[1..]) else []
  }

  lemma DigitPrefixAllDigits(s: string)
    requires AllDigits(s)
    ensures DigitPrefix(s) == s
  {
  }

  /** `parseInt(s, 10)`: leading white space is skipped, one sign is read,
      then the longest run of digits; no digit at all gives NaN. */
  function ParseInt(s: string): Number {
    ParseTrimmed(TrimStart(s))
  }

  /** `parseInt` once leading white space is gone. */
  function ParseTrimmed(t: string): Number {
    var negative := |t| > 0 && t[0] == '-';
    var body := if |t| > 0 && (t[0] == '-' || t[0] == '+') then t[1..] else t;
    var ds := DigitPrefix(body);
    if ds == [] then NaN
    else
      var v: int := DigitsValue(ds);
      Num(if negative then -v else v)
  }

  /** `parseInt(String(n), 10) == n`. */
  lemma ParseIntOfIntToString(n: int)
    ensures ParseInt(IntToString(n)) == Num(n)
  {
    var s := IntToString(n);
    var digits := NatToString(if n < 0 then -n else n);
    assert !IsSpace(s[0]) by {
      if n >= 0 { assert IsDigit(s[0]); }
    }
    assert TrimStart(s) == s;
    if n < 0 {
      assert s[1..] == digits;
    }
    DigitPrefixAllDigits(digits);
    NatToStringValue(if n < 0 then -n else n);
  }

  /** `parseInt(String(x), 10) == x`, NaN included: "NaN" has no digit. */
  lemma ParseIntOfNumberToString(x: Number)
    ensures NumberToString(x) != ""
    ensures ParseInt(NumberToString(x)) == x
  {
    if x.Num? {
      ParseIntOfIntToString(x.n);
      IntToStringSign(x.n);
    } else {
      var s := "NaN";
      assert !IsSpace(s[0]) && !IsDigit(s[0]);
      assert TrimStart(s) == s;
      assert DigitPrefix(s) == [];
    }
  }

  // --------------------------------------------------------- white space

  /** The characters `trim` and `parseInt` skip: ECMAScript's WhiteSpace
      (tab, vertical tab, form feed, space, no-break space, the byte-order
      mark and the other space separators: U+1680, U+2000 to U+200A,
      U+202F, U+205F and U+3000) and LineTerminator (line feed, carriage
      return, and the line and paragraph separators). */
  predicate IsSpace(c: char) {
    var k := c as int;
    || (9 <= k <= 13) || k == 32 || k == 0xA0 || k == 0x1680
    || (0x2000 <= k <= 0x200A) || k == 0x2028 || k == 0x2029 || k == 0x202F
    || k == 0x205F || k == 0x3000 || k == 0xFEFF
  }

  function TrimStart(s: string): (r: string)
    ensures |r| <= |s| && r == s[|s| - |r|..]
    ensures forall i :: 0 <= i < |s| - |r| ==> IsSpace(s[i])
    ensures r != [] ==> !IsSpace(r[0])
  {
    if s != [] && IsSpace(s[0]) then TrimStart(s[1..]) else s
  }

  function TrimEnd(s: string): (r: string)
    ensures |r| <= |s| && r == s[..|r|]
    ensures forall i :: |r| <= i < |s| ==> IsSpace(s[i])
    ensures r != [] ==> !IsSpace(r[|r| - 1])
  {
    if s != [] && IsSpace(s[|s| - 1]) then TrimEnd(s[..|s| - 1]) else s
  }

  /** `s.trim()`. */
  function Trim(s: string): string {
    TrimEnd(TrimStart(s))
  }

  /** The space separators beyond ASCII count as white space: the
      ideographic space alone trims to nothing, trails off a tag, and is
      skipped before the digits `parseInt` reads. */
  lemma IdeographicSpace(digits: string)
    ensures Trim([IdeographicSpaceChar]) == ""
    ensures Trim(['a', IdeographicSpaceChar]) == "a"
    ensures ParseInt([IdeographicSpaceChar] + digits) == ParseInt(digits)
  {
    var sp := IdeographicSpaceChar;
    assert ([sp] + digits)[1..] == digits;
    assert TrimStart(['a', sp]) == ['a', sp];
    assert ['a', sp][..1] == "a";
  }

  const IdeographicSpaceChar: char := '\U{3000}'

  /** `s.trim() === ''` exactly when `s` is white space only. */
  lemma TrimEmptyIffBlank(s: string)
    ensures Trim(s) == "" <==> forall i :: 0 <= i < |s| ==> IsSpace(s[i])
  {
    var t := TrimStart(s);
    if Trim(s) == "" {
      assert t == [];
    } else {
      assert t != [] && !IsSpace(t[0]);
      assert s[|s| - |t|] == t[0];
    }
  }

  /** A string without white space at either end is its own trim. */
  lemma TrimOfTrimmed(s: string)
    requires s != [] ==> !IsSpace(s[0]) && !IsSpace(s[|s| - 1])
    ensures Trim(s) == s
  {
  }

  // ------------------------------------------------------- split and join

  /** The index of the first `c` in `s`. */
  function IndexOfChar(s: string, c: char): (i: nat)
    requires c in s
    ensures i < |s| && s[i] == c && c !in s[..i]
  {
    if s[0] == c then 0 else 1 + IndexOfChar(s[1..], c)
  }

  /** `s.split(sep)` for a one-character separator. */
  function Split(s: string, sep: char): (parts: seq<string>)
    ensures 1 <= |parts|
    decreases |s|
  {
    if sep !in s then [s]
    else
      var i := IndexOfChar(s, sep);
      [s[..i]] + Split(s[i + 1..], sep)
  }

  /** `parts.join(sep)`. */
  function Join(parts: seq<string>, sep: char): string {
    if parts == [] then ""
    else if |parts| == 1 then parts[0]
    else parts[0] + [sep] + Join(parts[1..], sep)
  }

  /** Splitting a joined list gives the list back when no part holds the
      separator. */
  lemma {:induction false} SplitJoin(parts: seq<string>, sep: char)
    requires 1 <= |parts|
    requires forall k :: 0 <= k < |parts| ==> sep !in parts[k]
    ensures Split(Join(parts, sep), sep) == parts
  {
    if |parts| > 1 {
      var rest := Join(parts[1..], sep);
      var s := parts[0] + [sep] + rest;
      assert s[..|parts[0]|] == parts[0];
      assert s[|parts[0]|] == sep;
      assert s[|parts[0]| + 1..] == rest;
      SplitJoin(parts[1..], sep);
    }
  }

  // ------------------------------------------------------------- padding

  /** `s.padStart(2, '0')`. */
  function PadTwo(s: string): string {
    if |s| >= 2 then s else if |s| == 1 then "0" + s else "00"
  }

  // ---------------------------------------------------- URLSearchParams

  /** `new URLSearchParams(params).get(key)` over the entries in insertion
      order. */
  function ParamGet(params: seq<(string, string)>, key: string): Option<string> {
    if params == [] then None
    else if params[0].0 == key then Some(params[0].1)
    else ParamGet(params[1..], key)
  }

  /** `new URLSearchParams(params).toString()` for keys and values that need
      no percent-encoding. */
  function ParamsString(params: seq<(string, string)>): string {
    if params == [] then ""
    else if |params| == 1 then params[0].0 + "=" + params[0].1
    else params[0].0 + "=" + params[0].1 + "&" + ParamsString(params[1..])
  }

  /** `params.delete(key)`: every entry with that key is removed. */
  function ParamDelete(params: seq<(string, string)>, key: string): (r: seq<(string, string)>)
    ensures forall e :: e in r <==> e in params && e.0 != key
  {
    if params == [] then []
    else if params[0].0 == key then ParamDelete(params[1..], key)
    else [params[0]] + ParamDelete(params[1..], key)
  }

  /** `params.set(key, value)`: the first entry with that key takes the
      value in place and the others are removed; without one, the entry is
      appended. */
  function ParamSet(params: seq<(string, string)>, key: string, value: string): seq<(string, string)> {
    if params == [] then [(key, value)]
    else if params[0].0 == key then [(key, value)] + ParamDelete(params[1..], key)
    else [params[0]] + ParamSet(params[1..], key, value)
  }

  lemma {:induction false} ParamGetDeleted(params: seq<(string, string)>, key: string, other: string)
    ensures ParamGet(ParamDelete(params, key), key) == None
    ensures other != key ==> ParamGet(ParamDelete(params, key), other) == ParamGet(params, other)
  {
    if params != [] {
      ParamGetDeleted(params[1..], key, other);
    }
  }

  /** After `set`, `get` of that key yields the value and every other key
      yields what it did before. */
  lemma {:induction false} ParamGetSet(params: seq<(string, string)>, key: string, value: string, other: string)
    ensures ParamGet(ParamSet(params, key, value), key) == Some(value)
    ensures other != key ==> ParamGet(ParamSet(params, key, value), other) == ParamGet(params, other)
  {
    if params != [] {
      if params[0].0 == key {
        ParamGetDeleted(params[1..], key, other);
      } else {
        ParamGetSet(params[1..], key, value, other);
      }
    }
  }

  /** `set` keeps a single entry for the key. */
  lemma {:induction false} ParamSetSingle(params: seq<(string, string)>, key: string, value: string)
    ensures forall e :: e in ParamSet(params, key, value) && e.0 == key ==> e == (key, value)
    ensures |ParamSet(params, key, value)| <= |params| + 1
  {
    if params != [] {
      if params[0].0 == key {
        DeleteShorter(params[1..], key);
      } else {
        ParamSetSingle(params[1..], key, value);
      }
    }
  }

  lemma {:induction false} DeleteShorter(params: seq<(string, string)>, key: string)
    ensures |ParamDelete(params, key)| <= |params|
  {
    if params != [] {
      DeleteShorter(params[1..], key);
    }
  }

  // ------------------------------------------------------------- remainder

  /** `a % b` on integers: NaN for a zero divisor, otherwise the remainder
      takes the sign of the dividend. */
  function Rem(a: int, b: int): (r: Number)
    ensures b != 0 && a >= 0 ==> r == Num(a % (if b < 0 then -b else b))
  {
    if b == 0 then NaN
    else
      var m := if b < 0 then -b else b;
      if a >= 0 then Num(a % m) else Num(-((-a) % m))
  }

  // ------------------------------------------------------------- length

  /** `s.length`: the number of UTF-16 code units, so a character above
      U+FFFF (a surrogate pair) counts twice. */
  function Utf16Length(s: string): (n: nat)
    ensures |s| <= n <= 2 * |s|
  {
    if s == [] then 0 else (if s[0] as int > 0xFFFF then 2 else 1) + Utf16Length(s[1..])
  }

  /** A text made only of characters above U+FFFF is twice as long in code
      units as in characters; one with none of them is as long. */
  lemma {:induction false} Utf16LengthOfAstral(s: string)
    ensures (forall i :: 0 <= i < |s| ==> s[i] as int > 0xFFFF) ==> Utf16Length(s) == 2 * |s|
    ensures (forall i :: 0 <= i < |s| ==> s[i] as int <= 0xFFFF) ==> Utf16Length(s) == |s|
  {
    if s != [] {
      Utf16LengthOfAstral(s[1..]);
    }
  }
}
