/**
 * The fragment of Python's value semantics that the tunnel manager relies on:
 * JSON values as `json.load` returns them, `str()`, `int()`, `dict.get`,
 * iteration, truthiness, `str.strip` and `str.lower`.  Exceptions that the
 * source raises or catches are results, not control flow.
 */
module PyJson {

  datatype Option<+T> = None | Some(value: T)

  /** A JSON document as `json.load` returns it (floats are not modelled).
      An object keeps its members in insertion order, as a Python dict does. */
  datatype Json =
    | JNull
    | JBool(b: bool)
    | JInt(i: int)
    | JStr(s: string)
    | JArr(items: seq<Json>)
    | JObj(fields: seq<(string, Json)>)

  /** The Python exceptions the modelled code can raise. */
  datatype Exc = ValueError | TypeError | AttributeError | NameError | RuntimeError | OSError

  /** The outcome of a Python expression: a value, or the exception it raises. */
  datatype Outcome<+T> = Ok(value: T) | Raise(exc: Exc)

  // ---------------------------------------------------------------- digits

  predicate IsDigit(c: char) { '0' <= c <= '9' }

  predicate AllDigits(s: string) { forall k :: 0 <= k < |s| ==> IsDigit(s[k]) }

  function DigitChar(d: nat): (c: char)
    requires d < 10
    ensures IsDigit(c) && c as int - '0' as int == d
  {
    ('0' as int + d) as char
  }

  function DigitValue(c: char): (d: nat)
    requires IsDigit(c)
    ensures d < 10
  {
    c as int - '0' as int
  }

  function Pow10(k: nat): (r: nat)
    ensures r >= 1
  {
    if k == 0 then 1 else 10 * Pow10(k - 1)
  }

  /** The number a non-empty or empty run of decimal digits denotes. */
  function DecValue(s: string): nat
    requires AllDigits(s)
  {
    if s == [] then 0 else DecValue(s[..|s| - 1]) * 10 + DigitValue(s[|s| - 1])
  }

  /** `str(n)` for a natural number. */
  function NatToDec(n: nat): (r: string)
    ensures |r| >= 1 && AllDigits(r)
  {
    if n < 10 then [DigitChar(n)] else NatToDec(n / 10) + [DigitChar(n % 10)]
  }

  /** `str(n)` for any integer. */
  function IntToDec(n: int): (r: string)
    ensures |r| >= 1
  {
    if n < 0 then "-" + NatToDec(-n) else NatToDec(n)
  }

  lemma {:induction false} NatToDecValue(n: nat)
    ensures DecValue(NatToDec(n)) == n
  {
    if n >= 10 {
      NatToDecValue(n / 10);
      var s := NatToDec(n);
      assert s[..|s| - 1] == NatToDec(n / 10);
    }
  }

  /** Appending a digit string multiplies the value of the prefix by a power of ten. */
  lemma {:induction false} DecValueAppend(a: string, b: string)
    requires AllDigits(a) && AllDigits(b)
    ensures AllDigits(a + b)
    ensures DecValue(a + b) == DecValue(a) * Pow10(|b|) + DecValue(b)
  {
    if b == [] {
      assert a + b == a;
    } else {
      var ab, b' := a + b, b[..|b| - 1];
      assert ab[..|ab| - 1] == a + b';
      assert ab[|ab| - 1] == b[|b| - 1];
      DecValueAppend(a, b');
      var x, p, y, d := DecValue(a), Pow10(|b'|), DecValue(b'), DigitValue(b[|b| - 1]);
      assert DecValue(ab) == DecValue(a + b') * 10 + d;
      assert DecValue(b) == y * 10 + d;
      assert Pow10(|b|) == p * 10;
      MulAssoc(x, p, 10);
    }
  }

  lemma MulAssoc(x: int, y: int, z: int)
    ensures (x * y + 0) * z == x * (y * z)
  {
  }

  /** The number of digits of `str(n)` is the k with 10^(k-1) <= n < 10^k. */
  lemma {:induction false} NatToDecLength(n: nat, k: nat)
    requires k >= 1
    ensures |NatToDec(n)| <= k <==> n < Pow10(k)
  {
    if n >= 10 && k > 1 {
      NatToDecLength(n / 10, k - 1);
    }
  }

  // ------------------------------------------------------- string helpers

  /** The characters `str.strip()` and `int()` treat as white space (the
      Latin-1 ones; other Unicode spaces are not modelled). */
  predicate IsSpace(c: char)
  {
    var n := c as int;
    n == 32 || 9 <= n <= 13 || 28 <= n <= 31 || n == 0x85 || n == 0xA0
  }

  function TrimLeft(s: string): (r: string)
  {
    if |s| > 0 && IsSpace(s[0]) then TrimLeft(s[1..]) else s
  }

  function TrimRight(s: string): (r: string)
  {
    if |s| > 0 && IsSpace(s[|s| - 1]) then TrimRight(s[..|s| - 1]) else s
  }

  /** `s.strip()`: the longest infix with no white space at either end. */
  function Strip(s: string): (r: string)
  {
    TrimRight(TrimLeft(s))
  }

  lemma StripNoEdgeSpace(s: string)
    requires s != [] && !IsSpace(s[0]) && !IsSpace(s[|s| - 1])
    ensures Strip(s) == s
  {
  }

  function LowerChar(c: char): char
  {
    if 'A' <= c <= 'Z' then (c as int + 32) as char else c
  }

  /** `s.lower()` on ASCII letters (other case mappings are not modelled). */
  function Lower(s: string): (r: string)
    ensures |r| == |s| && forall k :: 0 <= k < |s| ==> r[k] == LowerChar(s[k])
  {
    if s == [] then [] else [LowerChar(s[0])] + Lower(s[1..])
  }

  /** `sep.join(xs)`. */
  function Join(sep: string, xs: seq<string>): string
  {
    if |xs| == 0 then "" else if |xs| == 1 then xs[0] else xs[0] + sep + Join(sep, xs[1..])
  }

  /** `c * n`: n copies of c, the empty string when n <= 0. */
  function Repeat(c: char, n: int): (r: string)
    ensures |r| == if n <= 0 then 0 else n
    ensures forall k :: 0 <= k < |r| ==> r[k] == c
  {
    if n <= 0 then "" else [c] + Repeat(c, n - 1)
  }

  // ----------------------------------------------------------------- int()

  /** A decimal literal as `int()` accepts it after the sign: digits, with
      single underscores allowed between two digits. */
  predicate DigitGroups(s: string)
  {
    && |s| > 0 && IsDigit(s[0]) && IsDigit(s[|s| - 1])
    && (forall k :: 0 <= k < |s| ==> IsDigit(s[k]) || s[k] == '_')
    && (forall k :: 0 <= k < |s| - 1 ==> !(s[k] == '_' && s[k + 1] == '_'))
  }

  function RemoveUnderscores(s: string): (r: string)
    requires forall k :: 0 <= k < |s| ==> IsDigit(s[k]) || s[k] == '_'
    ensures AllDigits(r)
  {
    if s == [] then [] else (if s[0] == '_' then [] else [s[0]]) + RemoveUnderscores(s[1..])
  }

  lemma RemoveUnderscoresOfDigits(s: string)
    requires AllDigits(s)
    ensures RemoveUnderscores(s) == s
  {
  }

  /** A literal without sign, if it is one. */
  function ParseUnsigned(t: string): Option<nat>
  {
    if DigitGroups(t) then Some(DecValue(RemoveUnderscores(t))) else None
  }

  lemma ParseUnsignedOfDigits(d: string)
    requires |d| > 0 && AllDigits(d)
    ensures ParseUnsigned(d) == Some(DecValue(d))
  {
    RemoveUnderscoresOfDigits(d);
  }

  /** `int(s)` for a string s: surrounding white space, then an optional sign,
      then a decimal literal; anything else raises ValueError (non-ASCII
      digits are not modelled). */
  function ParseInt(s: string): Option<int>
  {
    var t := Strip(s);
    if |t| > 0 && (t[0] == '+' || t[0] == '-') then
      match ParseUnsigned(t[1..])
      case Some(m) => Some(if t[0] == '-' then -(m as int) else m)
      case None => None
    else
      match ParseUnsigned(t)
      case Some(m) => Some(m)
      case None => None
  }

  /** `int(str(n)) == n`. */
  lemma ParseIntOfDec(n: int)
    ensures ParseInt(IntToDec(n)) == Some(n)
  {
    if n < 0 {
      var d := NatToDec(-n);
      NatToDecValue(-n);
      ParseUnsignedOfDigits(d);
      StripSigned(d);
      ParseIntOfNegative(d);
    } else {
      NatToDecValue(n);
      ParseIntOfDigits(NatToDec(n));
    }
  }

  lemma ParseIntOfNegative(d: string)
    requires ParseUnsigned(d).Some?
    requires Strip("-" + d) == "-" + d
    ensures ParseInt("-" + d) == Some(-(ParseUnsigned(d).value as int))
  {
    var s := "-" + d;
    assert s[1..] == d;
  }

  lemma StripSigned(d: string)
    requires |d| > 0 && AllDigits(d)
    ensures Strip("-" + d) == "-" + d
  {
    var s := "-" + d;
    assert s[|s| - 1] == d[|d| - 1];
    StripNoEdgeSpace(s);
  }

  /** A string of digits parses as the number it denotes. */
  lemma ParseIntOfDigits(s: string)
    requires |s| > 0 && AllDigits(s)
    ensures ParseInt(s) == Some(DecValue(s))
  {
    StripNoEdgeSpace(s);
    ParseUnsignedOfDigits(s);
  }

  /** `int(x)` for a JSON value x. */
  function PyInt(v: Json): (r: Outcome<int>)
    ensures r.Raise? ==> r.exc == ValueError || r.exc == TypeError
    ensures r.Raise? && r.exc == ValueError <==> v.JStr? && ParseInt(v.s).None?
  {
    match v
    case JBool(b) => Ok(if b then 1 else 0)
    case JInt(n) => Ok(n)
    case JStr(s) => (match ParseInt(s) case Some(n) => Ok(n) case None => Raise(ValueError))
    case _ => Raise(TypeError)
  }

  // ----------------------------------------------------------------- str()

  /** `repr(v)`: strings are quoted with single quotes (Python's choice of
      quote and its escapes are not modelled). */
  function PyRepr(v: Json): (r: string)
    ensures |r| >= 1
  {
    match v
    case JNull => "None"
    case JBool(b) => if b then "True" else "False"
    case JInt(n) => IntToDec(n)
    case JStr(s) => "'" + s + "'"
    case JArr(xs) => "[" + Join(", ", seq(|xs|, k requires 0 <= k < |xs| => PyRepr(xs[k]))) + "]"
    case JObj(fs) =>
      "{" + Join(", ", seq(|fs|, k requires 0 <= k < |fs| => "'" + fs[k].0 + "': " + PyRepr(fs[k].1))) + "}"
  }

  /** `str(v)`. */
  function PyStr(v: Json): (r: string)
    ensures r == [] <==> v == JStr([])
    ensures v.JStr? ==> r == v.s
  {
    if v.JStr? then v.s else PyRepr(v)
  }

  /** `str(v)` is a run of decimal digits only if v is a non-negative integer
      or a string; in particular `str(None)` is "None". */
  lemma PyStrNotDigits(v: Json)
    requires !(v.JInt? && v.i >= 0) && !v.JStr?
    ensures !AllDigits(PyStr(v))
  {
    var c := PyStr(v)[0];
    assert c == '-' || c == '[' || c == '{' || c == 'N' || c == 'T' || c == 'F';
  }

  // ------------------------------------------------------ truth and dicts

  /** Python truthiness of a JSON value. */
  predicate Truthy(v: Json)
  {
    match v
    case JNull => false
    case JBool(b) => b
    case JInt(n) => n != 0
    case JStr(s) => s != []
    case JArr(xs) => xs != []
    case JObj(fs) => fs != []
  }

  /** `v == b` for a Python bool b (True == 1 and False == 0). */
  predicate EqualsBool(v: Json, b: bool)
    ensures EqualsBool(v, b) ==> (Truthy(v) <==> b)
  {
    match v
    case JBool(c) => c == b
    case JInt(n) => n == (if b then 1 else 0)
    case _ => false
  }

  /** The value stored under key k in a dict, if any. */
  function Lookup(fs: seq<(string, Json)>, k: string): (r: Option<Json>)
    ensures r.Some? <==> exists j :: 0 <= j < |fs| && fs[j].0 == k
    ensures r.Some? ==> exists j :: 0 <= j < |fs| && fs[j] == (k, r.value)
  {
    if fs == [] then None
    else if fs[0].0 == k then Some(fs[0].1)
    else
      var r := Lookup(fs[1..], k);
      assert forall j :: 1 <= j < |fs| ==> fs[j] == fs[1..][j - 1];
      r
  }

  /** A key's value is the one of its first occurrence. */
  lemma {:induction false} LookupFirst(fs: seq<(string, Json)>, j: nat)
    requires j < |fs| && forall i :: 0 <= i < j ==> fs[i].0 != fs[j].0
    ensures Lookup(fs, fs[j].0) == Some(fs[j].1)
  {
    if j > 0 {
      assert fs[1..][j - 1] == fs[j];
      assert forall i :: 0 <= i < j - 1 ==> fs[1..][i] == fs[i + 1];
      LookupFirst(fs[1..], j - 1);
    }
  }

  /** `d.get(k, default)`; anything but a dict raises AttributeError. */
  function Get(d: Json, k: string, default: Json): (r: Outcome<Json>)
    ensures r.Ok? <==> d.JObj?
  {
    match d
    case JObj(fs) => (match Lookup(fs, k) case Some(x) => Ok(x) case None => Ok(default))
    case _ => Raise(AttributeError)
  }

  /** `d[k] = x`: an existing key keeps its position, a new key goes last. */
  function SetField(fs: seq<(string, Json)>, k: string, x: Json): (r: seq<(string, Json)>)
    ensures Lookup(r, k) == Some(x)
    ensures forall k' :: k' != k ==> Lookup(r, k') == Lookup(fs, k')
  {
    if fs == [] then [(k, x)]
    else if fs[0].0 == k then [(k, x)] + fs[1..]
    else [fs[0]] + SetField(fs[1..], k, x)
  }

  /** The elements `for item in v` visits: list items, dict keys or the
      characters of a string; other values are not iterable. */
  function Iterate(v: Json): (r: Outcome<seq<Json>>)
    ensures r.Ok? <==> v.JArr? || v.JObj? || v.JStr?
    ensures v.JArr? ==> r == Ok(v.items)
  {
    match v
    case JArr(xs) => Ok(xs)
    case JObj(fs) => Ok(seq(|fs|, k requires 0 <= k < |fs| => JStr(fs[k].0)))
    case JStr(s) => Ok(seq(|s|, k requires 0 <= k < |s| => JStr([s[k]])))
    case _ => Raise(TypeError)
  }

  /** `len(v)`. */
  function Len(v: Json): (r: Outcome<nat>)
    ensures r.Ok? <==> v.JArr? || v.JObj? || v.JStr?
    ensures r.Ok? ==> Iterate(v).Ok? && |Iterate(v).value| == r.value
  {
    match v
    case JArr(xs) => Ok(|xs|)
    case JObj(fs) => Ok(|fs|)
    case JStr(s) => Ok(|s|)
    case _ => Raise(TypeError)
  }
}
