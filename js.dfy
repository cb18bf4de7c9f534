/** The pieces of JavaScript string, number and JSON semantics that the
    extension's logic depends on: `trim`, `toLowerCase`, `includes`,
    `split`/`join`, `parseInt`, number-to-string conversion and truthiness. */
module Js {

  /** A value that may be missing: `null`, `undefined`, or `NaN` where a
      number is expected. */
  datatype Option<T> = None | Some(value: T)

  // ---------------------------------------------------------------------
  // Whitespace and trim
  // ---------------------------------------------------------------------

  /** The WhiteSpace and LineTerminator code points that `String.prototype.trim`
      and `parseInt` skip. */
  predicate IsSpace(c: char) {
    || c == ' ' || c == '\t' || c == '\n' || c == '\r'
    || c == '\U{000B}' || c == '\U{000C}' || c == '\U{00A0}' || c == '\U{1680}'
    || ('\U{2000}' <= c <= '\U{200A}')
    || c == '\U{2028}' || c == '\U{2029}' || c == '\U{202F}' || c == '\U{205F}'
    || c == '\U{3000}' || c == '\U{FEFF}'
  }

  /** Neither end of `s` is whitespace. */
  predicate Trimmed(s: string) {
    s == [] || (!IsSpace(s[0]) && !IsSpace(s[|s| - 1]))
  }

  /** Drops the leading whitespace of `s`. */
  function TrimStart(s: string): (r: string)
    ensures |r| <= |s| && r == s[|s| - |r|..]
    ensures r == [] || !IsSpace(r[0])
    ensures forall i :: 0 <= i < |s| - |r| ==> IsSpace(s[i])
  {
    if s != [] && IsSpace(s[0]) then TrimStart(s[1..]) else s
  }

  /** Drops the trailing whitespace of `s`. */
  function TrimEnd(s: string): (r: string)
    ensures |r| <= |s| && r == s[..|r|]
    ensures r == [] || !IsSpace(r[|r| - 1])
    ensures forall i :: |r| <= i < |s| ==> IsSpace(s[i])
  {
    if s != [] && IsSpace(s[|s| - 1]) then TrimEnd(s[..|s| - 1]) else s
  }

  /** `String.prototype.trim`: the leading whitespace is cut, then the
      trailing whitespace. */
  function Trim(s: string): (r: string)
    ensures Trimmed(r)
    ensures r == [] <==> forall i :: 0 <= i < |s| ==> IsSpace(s[i])
    ensures r == TrimEnd(TrimStart(s))
  {
    var t := TrimStart(s);
    var r := TrimEnd(t);
    assert r == [] ==> t == [];
    assert r != [] ==> !IsSpace(r[0]);
    r
  }

  /** A string without whitespace at either end is its own trim. */
  lemma TrimFixed(s: string)
    requires Trimmed(s)
    ensures Trim(s) == s
  {
    assert TrimStart(s) == s;
  }

  /** Trimming is idempotent: trimming a form value twice changes nothing. */
  lemma TrimIdempotent(s: string)
    ensures Trim(Trim(s)) == Trim(s)
  {
    TrimFixed(Trim(s));
  }

  /** Whitespace in front of a string does not survive trimming. */
  lemma TrimSkipsLeadingSpace(c: char, s: string)
    requires IsSpace(c)
    ensures Trim([c] + s) == Trim(s)
  {
    assert ([c] + s)[1..] == s;
  }

  // ---------------------------------------------------------------------
  // Case and substrings
  // ---------------------------------------------------------------------

  /** `toLowerCase` on one character (ASCII letters only). */
  function LowerChar(c: char): char {
    if 'A' <= c <= 'Z' then (c as int - 'A' as int + 'a' as int) as char else c
  }

  /** `String.prototype.toLowerCase` (ASCII letters only). */
  function ToLower(s: string): (r: string)
    ensures |r| == |s|
    ensures forall i :: 0 <= i < |s| ==> r[i] == LowerChar(s[i])
  {
    seq(|s|, i requires 0 <= i < |s| => LowerChar(s[i]))
  }

  /** Lower-casing twice is lower-casing once. */
  lemma ToLowerIdempotent(s: string)
    ensures ToLower(ToLower(s)) == ToLower(s)
  {
  }

  /** `t` occurs in `s` at position `i`. */
  predicate OccursAt(s: string, t: string, i: int) {
    0 <= i && i + |t| <= |s| && s[i..i + |t|] == t
  }

  /** `t` is a prefix of `s`. */
  predicate StartsWith(s: string, t: string) {
    |t| <= |s| && s[..|t|] == t
  }

  /** `String.prototype.includes`: scans `s` for an occurrence of `t`. */
  function Includes(s: string, t: string): (r: bool)
    ensures r <==> exists i :: OccursAt(s, t, i)
  {
    if StartsWith(s, t) then
      assert OccursAt(s, t, 0);
      true
    else if s == [] then
      assert forall i :: !OccursAt(s, t, i);
      false
    else
      var r := Includes(s[1..], t);
      assert forall i :: 1 <= i ==> (OccursAt(s, t, i) <==> OccursAt(s[1..], t, i - 1));
      assert r ==> exists i :: OccursAt(s, t, i) by {
        if r { var i :| OccursAt(s[1..], t, i); assert OccursAt(s, t, i + 1); }
      }
      r
  }

  // ---------------------------------------------------------------------
  // split and join
  // ---------------------------------------------------------------------

  /** `s.split(sep)` for a one-character separator: the pieces between the
      separators, including empty ones; the empty string gives `[""]`. */
  function Split(s: string, sep: char): (r: seq<string>)
    ensures |r| >= 1
    ensures forall k :: 0 <= k < |r| ==> sep !in r[k]
  {
    if s == [] then [[]]
    else
      var rest := Split(s[1..], sep);
      if s[0] == sep then [[]] + rest
      else [[s[0]] + rest[0]] + rest[1..]
  }

  /** `parts.join(sep)`. */
  function Join(parts: seq<string>, sep: string): string {
    if parts == [] then []
    else if |parts| == 1 then parts[0]
    else parts[0] + sep + Join(parts[1..], sep)
  }

  /** A piece without the separator splits to itself. */
  lemma {:induction false} SplitPlain(p: string, sep: char)
    requires sep !in p
    ensures Split(p, sep) == [p]
  {
    if p != [] {
      SplitPlain(p[1..], sep);
      assert [p[0]] + p[1..] == p;
    }
  }

  /** Splitting peels off everything before the first separator. */
  lemma {:induction false} SplitAtSeparator(p: string, sep: char, rest: string)
    requires sep !in p
    ensures Split(p + [sep] + rest, sep) == [p] + Split(rest, sep)
  {
    var s := p + [sep] + rest;
    if p == [] {
      assert s[1..] == rest;
    } else {
      assert s[1..] == p[1..] + [sep] + rest;
      SplitAtSeparator(p[1..], sep, rest);
      assert [p[0]] + p[1..] == p;
    }
  }

  /** Splitting undoes joining when no piece holds the separator. */
  lemma {:induction false} SplitJoin(parts: seq<string>, sep: char)
    requires |parts| >= 1
    requires forall k :: 0 <= k < |parts| ==> sep !in parts[k]
    ensures Split(Join(parts, [sep]), sep) == parts
  {
    if |parts| == 1 {
      SplitPlain(parts[0], sep);
    } else {
      SplitJoin(parts[1..], sep);
      SplitAtSeparator(parts[0], sep, Join(parts[1..], [sep]));
      assert [parts[0]] + parts[1..] == parts;
    }
  }

  /** Splitting and joining with the same separator gives the text back. */
  lemma {:induction false} JoinSplit(s: string, sep: char)
    ensures Join(Split(s, sep), [sep]) == s
  {
    if s != [] {
      var rest := Split(s[1..], sep);
      JoinSplit(s[1..], sep);
      if s[0] == sep {
        assert Split(s, sep) == [[]] + rest;
        assert ([[]] + rest)[1..] == rest;
      } else {
        JoinConsFirst(s[0], rest, [sep]);
      }
      assert s == [s[0]] + s[1..];
    }
  }

  /** Prefixing the first part prefixes the joined text. */
  lemma JoinConsFirst(c: char, parts: seq<string>, sep: string)
    requires |parts| >= 1
    ensures Join([[c] + parts[0]] + parts[1..], sep) == [c] + Join(parts, sep)
  {
    var q := [[c] + parts[0]] + parts[1..];
    assert q[1..] == parts[1..];
  }

  // ---------------------------------------------------------------------
  // Arrays
  // ---------------------------------------------------------------------

  /** `Array.prototype.filter`: the elements that pass, in order. */
  function Filter<T(!new)>(s: seq<T>, keep: T -> bool): (r: seq<T>)
    ensures forall x :: multiset(r)[x] == if keep(x) then multiset(s)[x] else 0
    ensures |s| == 1 ==> r == if keep(s[0]) then s else []
  {
    if s == [] then []
    else
      var rest := Filter(s[1..], keep);
      assert s == [s[0]] + s[1..];
      if keep(s[0]) then [s[0]] + rest else rest
  }

  /** Filtering keeps order: the kept elements of a concatenation are those of
      its first part followed by those of its second. */
  lemma {:induction false} FilterConcat<T(!new)>(s: seq<T>, t: seq<T>, keep: T -> bool)
    ensures Filter(s + t, keep) == Filter(s, keep) + Filter(t, keep)
  {
    if s == [] {
      assert s + t == t;
    } else {
      assert (s + t)[0] == s[0] && (s + t)[1..] == s[1..] + t;
      FilterConcat(s[1..], t, keep);
    }
  }

  /** `Array.prototype.findIndex`: the position of the first element that
      passes, if any. */
  function FindIndex<T>(s: seq<T>, p: T -> bool): (r: Option<nat>)
    ensures r.Some? ==> r.value < |s| && p(s[r.value])
    ensures r.Some? ==> forall j :: 0 <= j < r.value ==> !p(s[j])
    ensures r.None? ==> forall j :: 0 <= j < |s| ==> !p(s[j])
  {
    if s == [] then None
    else if p(s[0]) then Some(0)
    else match FindIndex(s[1..], p)
      case None => None
      case Some(j) => Some(j + 1)
  }

  /** Searching a concatenation searches the first part, then the second. */
  lemma FindIndexConcat<T>(a: seq<T>, b: seq<T>, p: T -> bool)
    ensures FindIndex(a + b, p) == match FindIndex(a, p)
      case Some(i) => Some(i)
      case None => match FindIndex(b, p)
        case Some(j) => Some(|a| + j)
        case None => None
  {
    var ab := a + b;
    var r := FindIndex(ab, p);
    match FindIndex(a, p)
    case Some(i) =>
      assert ab[i] == a[i];
      assert r.Some? && r.value <= i;
      assert ab[r.value] == a[r.value];
    case None =>
      assert forall j :: 0 <= j < |a| ==> ab[j] == a[j];
      match FindIndex(b, p)
      case Some(j) =>
        assert ab[|a| + j] == b[j];
        assert r.Some? && |a| <= r.value <= |a| + j;
        assert ab[r.value] == b[r.value - |a|];
      case None =>
        assert forall j :: |a| <= j < |ab| ==> ab[j] == b[j - |a|];
  }

  /** `Array.prototype.map`: `f` applied to every element, in order. */
  function Map<T, U>(f: T -> U, s: seq<T>): (r: seq<U>)
    ensures |r| == |s|
    ensures forall i :: 0 <= i < |s| ==> r[i] == f(s[i])
  {
    if s == [] then [] else [f(s[0])] + Map(f, s[1..])
  }

  /** Mapping a list is mapping its head and then its tail. */
  lemma MapCons<T, U>(f: T -> U, x: T, s: seq<T>)
    ensures Map(f, [x] + s) == [f(x)] + Map(f, s)
  {
    assert ([x] + s)[1..] == s;
  }

  // ---------------------------------------------------------------------
  // Numbers: parseInt and conversion to decimal text
  // ---------------------------------------------------------------------

  /** The value of a digit character in bases up to 36; 36 for anything else. */
  function DigitOf(c: char): (d: nat)
    ensures d <= 36
  {
    if '0' <= c <= '9' then c as int - '0' as int
    else if 'a' <= c <= 'z' then c as int - 'a' as int + 10
    else if 'A' <= c <= 'Z' then c as int - 'A' as int + 10
    else 36
  }

  /** The longest prefix of `s` made of digits of the given radix. */
  function LeadingDigits(s: string, radix: nat): (r: string)
    ensures |r| <= |s| && r == s[..|r|]
    ensures forall i :: 0 <= i < |r| ==> DigitOf(r[i]) < radix
    ensures |r| == |s| || DigitOf(s[|r|]) >= radix
  {
    if s == [] || DigitOf(s[0]) >= radix then []
    else [s[0]] + LeadingDigits(s[1..], radix)
  }

  /** The value of a string of digits, most significant first. */
  function DigitsValue(ds: string, radix: nat): nat {
    if ds == [] then 0
    else DigitsValue(ds[..|ds| - 1], radix) * radix + DigitOf(ds[|ds| - 1])
  }

  /** `parseInt(s)` without a radix argument: leading whitespace is skipped, a
      sign is read, a `0x`/`0X` prefix selects base 16, and the longest run of
      digits is converted; no digits gives `NaN`, written `None`. */
  function ParseInt(s: string): (r: Option<int>)
    ensures r.None? <==> LeadingDigits(ParseBody(s), ParseRadix(s)) == []
    ensures r.Some? ==> r.value == Sign(s) * DigitsValue(LeadingDigits(ParseBody(s), ParseRadix(s)), ParseRadix(s))
  {
    var digits := LeadingDigits(ParseBody(s), ParseRadix(s));
    if digits == [] then None
    else
      var t := TrimStart(s);
      var magnitude: int := DigitsValue(digits, ParseRadix(s));
      Some(if t != [] && t[0] == '-' then -magnitude else magnitude)
  }

  /** The sign `parseInt` reads after the whitespace: -1 after a `-`, else 1. */
  function Sign(s: string): int {
    var t := TrimStart(s);
    if t != [] && t[0] == '-' then -1 else 1
  }

  /** What `parseInt` reads after the whitespace and the sign. */
  function Unsigned(s: string): string {
    var t := TrimStart(s);
    if t != [] && (t[0] == '-' || t[0] == '+') then t[1..] else t
  }

  /** `parseInt` reads base 16 after a `0x` or `0X` prefix, base 10 otherwise. */
  function ParseRadix(s: string): nat {
    var u := Unsigned(s);
    if |u| >= 2 && u[0] == '0' && (u[1] == 'x' || u[1] == 'X') then 16 else 10
  }

  /** The digits `parseInt` reads, after the radix prefix. */
  function ParseBody(s: string): string {
    var u := Unsigned(s);
    if ParseRadix(s) == 16 then u[2..] else u
  }

  /** The character of a decimal digit. */
  function DecimalDigit(d: nat): (c: char)
    requires d < 10
    ensures DigitOf(c) == d
  {
    ('0' as int + d) as char
  }

  /** Decimal text of a natural number, as `String(n)` writes it. */
  function NatToString(n: nat): (r: string)
    ensures |r| >= 1
    ensures forall i :: 0 <= i < |r| ==> '0' <= r[i] <= '9'
  {
    if n < 10 then [DecimalDigit(n)]
    else NatToString(n / 10) + [DecimalDigit(n % 10)]
  }

  /** Decimal text of an integer, as a template literal `${n}` writes it. */
  function IntToString(n: int): (r: string)
    ensures r != []
  {
    if n < 0 then "-" + NatToString(-n) else NatToString(n)
  }

  /** Decimal text reads back as the number it was written from. */
  lemma {:induction false} NatToStringValue(n: nat)
    ensures DigitsValue(NatToString(n), 10) == n
  {
    if n >= 10 {
      NatToStringValue(n / 10);
      var s := NatToString(n / 10) + [DecimalDigit(n % 10)];
      assert s[..|s| - 1] == NatToString(n / 10);
    }
  }

  /** Decimal text is no longer than the number of its digits: up to three
      characters below 1000. */
  lemma {:induction false} NatToStringShort(n: nat)
    ensures n < 10 ==> |NatToString(n)| == 1
    ensures 10 <= n < 100 ==> |NatToString(n)| == 2
    ensures 100 <= n < 1000 ==> |NatToString(n)| == 3
  {
    if n >= 10 {
      NatToStringShort(n / 10);
    }
  }

  /** A run made only of digits is read in full. */
  lemma {:induction false} LeadingDigitsAll(s: string, radix: nat)
    requires forall i :: 0 <= i < |s| ==> DigitOf(s[i]) < radix
    ensures LeadingDigits(s, radix) == s
  {
    if s != [] {
      LeadingDigitsAll(s[1..], radix);
    }
  }

  /** After the sign, `parseInt` sees exactly the decimal digits of the
      number's magnitude, in base 10. */
  lemma IntToStringBody(n: int)
    ensures ParseBody(IntToString(n)) == NatToString(if n < 0 then -n else n)
    ensures ParseRadix(IntToString(n)) == 10
    ensures TrimStart(IntToString(n)) == IntToString(n)
  {
    var s := IntToString(n);
    var digits := NatToString(if n < 0 then -n else n);
    assert !IsSpace(s[0]) by {
      assert s[0] == '-' || '0' <= s[0] <= '9';
    }
    assert TrimStart(s) == s;
    assert Unsigned(s) == digits by {
      if n < 0 { assert s[1..] == digits; }
    }
    assert !(|digits| >= 2 && digits[1] == 'x') && !(|digits| >= 2 && digits[1] == 'X') by {
      if |digits| >= 2 { assert '0' <= digits[1] <= '9'; }
    }
  }

  /** `parseInt` reads back what `IntToString` writes, for every integer. */
  lemma ParseIntToString(n: int)
    ensures ParseInt(IntToString(n)) == Some(n)
  {
    var m: nat := if n < 0 then -n else n;
    IntToStringBody(n);
    LeadingDigitsAll(NatToString(m), 10);
    NatToStringValue(m);
    assert n < 0 <==> IntToString(n)[0] == '-';
  }

  // ---------------------------------------------------------------------
  // JSON values and truthiness
  // ---------------------------------------------------------------------

  /** A value produced by `JSON.parse`. */
  datatype Json =
    | JNull
    | JBool(b: bool)
    | JNumber(n: real)
    | JString(s: string)
    | JArray(elems: seq<Json>)
    | JObject(fields: map<string, Json>)

  /** JavaScript truthiness of a value that may be `undefined`: `false`, `0`,
      `""`, `null` and `undefined` are falsy; arrays and objects, even empty
      ones, are truthy. */
  predicate Truthy(v: Option<Json>) {
    match v
    case None => false
    case Some(JNull) => false
    case Some(JBool(b)) => b
    case Some(JNumber(n)) => n != 0.0
    case Some(JString(s)) => s != []
    case Some(JArray(_)) => true
    case Some(JObject(_)) => true
  }

  /** Reading property `key` of a value that is not `null`: objects yield the
      member if present, every other value has no such property. */
  function Property(v: Json, key: string): (r: Option<Json>)
    requires !v.JNull?
    ensures r.Some? <==> v.JObject? && key in v.fields
  {
    if v.JObject? && key in v.fields then Some(v.fields[key]) else None
  }
}
