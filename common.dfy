/** Shared vocabulary of the model: optional values, the few string operations
    the Python code relies on (lower-casing, `in` on strings, `startswith`,
    `split`, `strip`), and JSON request bodies with Python's truthiness. */
module Common {

  datatype Option<+T> = None | Some(value: T)

  // ---------------------------------------------------------------------------
  // Strings
  // ---------------------------------------------------------------------------

  /** `str.lower()` restricted to ASCII letters. */
  function LowerChar(c: char): char
  {
    if 'A' <= c <= 'Z' then (c as int + 32) as char else c
  }

  function Lower(s: string): (r: string)
    ensures |r| == |s|
    ensures forall i :: 0 <= i < |s| ==> r[i] == LowerChar(s[i])
  {
    seq(|s|, i requires 0 <= i < |s| => LowerChar(s[i]))
  }

  /** `s.startswith(p)` */
  predicate StartsWith(s: string, p: string)
  {
    |p| <= |s| && s[..|p|] == p
  }

  /** `p` occurs in `s` starting at index `i`. */
  predicate OccursAt(s: string, p: string, i: int)
  {
    0 <= i <= |s| - |p| && s[i..i + |p|] == p
  }

  /** Python's `p in s` for strings: `p` occurs somewhere in `s`. */
  predicate Contains(s: string, p: string)
  {
    exists i :: 0 <= i <= |s| - |p| && OccursAt(s, p, i)
  }

  /** A one-character string occurs in `s` exactly when that character does. */
  lemma ContainsChar(s: string, c: char)
    ensures Contains(s, [c]) <==> c in s
  {
    if c in s {
      var i :| 0 <= i < |s| && s[i] == c;
      assert OccursAt(s, [c], i);
    }
    if Contains(s, [c]) {
      var i: int :| 0 <= i <= |s| - 1 && OccursAt(s, [c], i);
      assert s[i..i + 1] == [c];
      assert s[i] == s[i..i + 1][0];
    }
  }

  /** The first index of `c` in `s`, if any. */
  function IndexOf(s: string, c: char): (r: Option<nat>)
    ensures r.Some? ==> r.value < |s| && s[r.value] == c && c !in s[..r.value]
    ensures r.None? <==> c !in s
  {
    if |s| == 0 then None
    else if s[0] == c then Some(0)
    else match IndexOf(s[1..], c)
      case None => None
      case Some(i) =>
        assert s[..i + 1] == [s[0]] + s[1..][..i];
        Some(i + 1)
  }

  /** `s.split(c)[0]`: the part of `s` before the first `c` (all of `s` when there is none). */
  function BeforeFirst(s: string, c: char): (r: string)
    ensures StartsWith(s, r) && c !in r
    ensures c in s ==> |r| < |s| && s[|r|] == c
    ensures c !in s ==> r == s
  {
    match IndexOf(s, c)
      case None => s
      case Some(i) => s[..i]
  }

  /** `s.rsplit(c, 1)[1]`: the part of `s` after the last `c`. */
  function AfterLast(s: string, c: char): (r: string)
    requires c in s
    ensures c !in r && |r| < |s| && s[|s| - |r| - 1] == c && r == s[|s| - |r|..]
  {
    if s[|s| - 1] == c then "" else AfterLast(s[..|s| - 1], c) + [s[|s| - 1]]
  }

  /** Whatever precedes the last `c`, the part after it is recovered exactly. */
  lemma {:induction false} AfterLastRecovers(prefix: string, c: char, x: string)
    requires c !in x
    ensures AfterLast(prefix + [c] + x, c) == x
    decreases |x|
  {
    var s := prefix + [c] + x;
    if x == [] {
      assert s[|s| - 1] == c;
    } else {
      var init := x[..|x| - 1];
      assert s[..|s| - 1] == prefix + [c] + init;
      assert s[|s| - 1] == x[|x| - 1];
      AfterLastRecovers(prefix, c, init);
      assert init + [x[|x| - 1]] == x;
    }
  }

  /** `s.split(c)`: the pieces between occurrences of `c`, in order. */
  function Split(s: string, c: char): (r: seq<string>)
    ensures |r| >= 1
    ensures forall k :: 0 <= k < |r| ==> c !in r[k]
    decreases |s|
  {
    match IndexOf(s, c)
      case None => [s]
      case Some(i) => [s[..i]] + Split(s[i + 1..], c)
  }

  /** `c.join(parts)` */
  function Join(parts: seq<string>, c: char): string
  {
    if parts == [] then ""
    else if |parts| == 1 then parts[0]
    else parts[0] + [c] + Join(parts[1..], c)
  }

  /** Splitting loses nothing: joining the pieces with the separator gives the text back. */
  lemma {:induction false} SplitJoin(s: string, c: char)
    ensures Join(Split(s, c), c) == s
    decreases |s|
  {
    match IndexOf(s, c)
      case None =>
      case Some(i) =>
        SplitJoin(s[i + 1..], c);
        assert Split(s, c) == [s[..i]] + Split(s[i + 1..], c);
        assert s == s[..i] + [c] + s[i + 1..];
  }

  /** The whitespace `str.strip()` and `int()` remove, restricted to ASCII: tab, line
      feed, vertical tab, form feed, carriage return and the file, group, record and
      unit separators (0x1c-0x1f), and space. */
  predicate IsSpace(c: char)
  {
    c == ' ' || c == '\t' || c == '\n' || c == '\r' || c == 11 as char || c == 12 as char
    || (28 as char <= c <= 31 as char)
  }

  function StripLeft(s: string): (r: string)
    ensures |r| <= |s| && r == s[|s| - |r|..]
    ensures r != [] ==> !IsSpace(r[0])
  {
    if s != [] && IsSpace(s[0]) then StripLeft(s[1..]) else s
  }

  function StripRight(s: string): (r: string)
    ensures |r| <= |s| && r == s[..|r|]
    ensures r != [] ==> !IsSpace(r[|r| - 1])
  {
    if s != [] && IsSpace(s[|s| - 1]) then StripRight(s[..|s| - 1]) else s
  }

  /** `s.strip()` */
  function Strip(s: string): string
  {
    StripRight(StripLeft(s))
  }

  // ---------------------------------------------------------------------------
  // JSON request bodies
  // ---------------------------------------------------------------------------

  /** A decoded JSON value, as `request.get_json()` hands it to a handler. */
  datatype Json =
    | JNull
    | JBool(b: bool)
    | JInt(i: int)
    | JStr(s: string)
    | JArr(items: seq<Json>)
    | JObj(fields: map<string, Json>)

  /** Python's `bool(value)` on a decoded JSON value. */
  predicate Truthy(j: Json)
  {
    match j
    case JNull => false
    case JBool(b) => b
    case JInt(i) => i != 0
    case JStr(s) => s != ""
    case JArr(xs) => xs != []
    case JObj(m) => m != map[]
  }

  /** `request.get_json()`: None when the request carried no JSON object. */
  type Body = Option<map<string, Json>>

  /** `not data` for a request body. */
  predicate Missing(body: Body)
  {
    body.None? || body.value == map[]
  }

  /** `data.get(key)` */
  function Field(body: map<string, Json>, key: string): Option<Json>
  {
    if key in body then Some(body[key]) else None
  }

  /** A JSON list or object: no database driver binds one as a column value or a query
      parameter, so storing or querying with one fails. */
  predicate Unbindable(j: Json)
  {
    j.JArr? || j.JObj?
  }

  /** The text of a JSON string; any other JSON value stores as SQL NULL in a text column. */
  function TextOf(j: Json): Option<string>
  {
    if j.JStr? then Some(j.s) else None
  }

  /** The integer a JSON value stands for (a boolean counts as 0 or 1, as in Python);
      `None` for anything else. */
  function IntOf(j: Json): Option<int>
  {
    match j
    case JInt(i) => Some(i)
    case JBool(b) => Some(if b then 1 else 0)
    case _ => None
  }

  // ---------------------------------------------------------------------------
  // int()
  // ---------------------------------------------------------------------------

  predicate IsDigit(c: char)
  {
    '0' <= c <= '9'
  }

  predicate AllDigits(s: string)
  {
    forall i :: 0 <= i < |s| ==> IsDigit(s[i])
  }

  /** The value of a decimal numeral, most significant digit first. */
  function DigitsValue(s: string): nat
    requires AllDigits(s)
  {
    if s == [] then 0 else DigitsValue(s[..|s| - 1]) * 10 + (s[|s| - 1] as int - '0' as int)
  }

  /** The decimal numeral of `n`, without leading zeros. */
  function Decimal(n: nat): (r: string)
    ensures r != [] && AllDigits(r)
  {
    if n < 10 then [('0' as int + n) as char] else Decimal(n / 10) + [('0' as int + n % 10) as char]
  }

  /** Python's `int(s)` on text, base 10: surrounding whitespace, an optional sign and at
      least one digit; `None` where `int()` raises. */
  function ParseInt(s: string): (r: Option<int>)
    ensures r.Some? ==> Strip(s) != []
  {
    var t := Strip(s);
    if t != [] && (t[0] == '-' || t[0] == '+') then
      var digits := t[1..];
      if digits != [] && AllDigits(digits) then
        var v: int := DigitsValue(digits);
        Some(if t[0] == '-' then -v else v)
      else None
    else if t != [] && AllDigits(t) then Some(DigitsValue(t))
    else None
  }

  /** Python's `int(value)` on a decoded JSON value: integers as they are, booleans as 0
      or 1, and strings through `ParseInt`; `None` where it raises. */
  function PyInt(j: Json): (r: Option<int>)
    ensures j.JInt? ==> r == Some(j.i)
    ensures j.JBool? ==> r == Some(if j.b then 1 else 0)
    ensures j.JStr? ==> r == ParseInt(j.s)
    ensures j.JNull? || j.JArr? || j.JObj? ==> r.None?
  {
    match j
    case JStr(s) => ParseInt(s)
    case _ => IntOf(j)
  }

  /** Reading a rendered numeral gives the number back. */
  lemma {:induction false} DecimalValue(n: nat)
    ensures DigitsValue(Decimal(n)) == n
  {
    if n >= 10 {
      DecimalValue(n / 10);
      var d := Decimal(n);
      assert d[..|d| - 1] == Decimal(n / 10);
    }
  }

  /** Text without whitespace at either end is its own strip. */
  lemma StripUnpadded(s: string)
    requires s != [] && !IsSpace(s[0]) && !IsSpace(s[|s| - 1])
    ensures Strip(s) == s
  {
  }

  /** `int(str(n)) == n`: `int()` reads back every integer Python prints. */
  lemma ParseIntRoundTrip(n: int)
    ensures ParseInt(if n < 0 then "-" + Decimal(-n) else Decimal(n)) == Some(n)
  {
    if n < 0 {
      var d := Decimal(-n);
      DecimalValue(-n);
      var text := "-" + d;
      assert IsDigit(d[|d| - 1]) && text[|text| - 1] == d[|d| - 1];
      StripUnpadded(text);
      assert text[1..] == d;
    } else {
      var d := Decimal(n);
      DecimalValue(n);
      assert IsDigit(d[0]) && IsDigit(d[|d| - 1]);
      StripUnpadded(d);
    }
  }

  /** Python's `x or default` on an optional text column. */
  function OrDefault(o: Option<string>, default: string): (r: string)
    ensures o.Some? && o.value != "" ==> r == o.value
    ensures o.None? || o.value == "" ==> r == default
  {
    if o.Some? && o.value != "" then o.value else default
  }
}
