/**
 * A decoded JSON value as the bot sees it after `response.json()`, together
 * with the two Python operations the bot applies to such values: `dict.get` /
 * `in` on an object, and `str()` (which the f-strings of the bot use).
 */
module PyJson {

  import opened Wrappers

  /** An object keeps its keys in insertion order, as a Python dict does. */
  datatype Json =
    | Null
    | Bool(b: bool)
    | Int(i: int)
    | Str(s: string)
    | List(items: seq<Json>)
    | Dict(entries: seq<(string, Json)>)

  /** `key in obj` for a Python dict; false for every non-dict value. */
  predicate HasKey(j: Json, key: string)
  {
    j.Dict? && exists k :: 0 <= k < |j.entries| && j.entries[k].0 == key
  }

  function Lookup(entries: seq<(string, Json)>, key: string): (r: Json)
    ensures (exists k :: 0 <= k < |entries| && entries[k].0 == key) ==>
              exists k :: 0 <= k < |entries| && entries[k] == (key, r)
    ensures (forall k :: 0 <= k < |entries| ==> entries[k].0 != key) ==> r == Null
  {
    if entries == [] then Null
    else if entries[0].0 == key then entries[0].1
    else
      var r := Lookup(entries[1..], key);
      assert forall k :: 0 <= k < |entries| - 1 ==> entries[1..][k] == entries[k + 1];
      r
  }

  /**
   * `obj.get(key)` on a dict: the value stored under `key`, or `None` when the
   * key is absent. Defined on dicts only: on any other value Python raises.
   */
  function Get(j: Json, key: string): (r: Json)
    requires j.Dict?
    ensures HasKey(j, key) ==> exists k :: 0 <= k < |j.entries| && j.entries[k] == (key, r)
    ensures !HasKey(j, key) ==> r == Null
  {
    Lookup(j.entries, key)
  }

  /** No key occurs twice: true of every dict the JSON decoder builds. */
  predicate DistinctKeys(entries: seq<(string, Json)>)
  {
    forall a, b :: 0 <= a < b < |entries| ==> entries[a].0 != entries[b].0
  }

  /** On a dict with distinct keys, `get` finds exactly the value stored under the key. */
  lemma GetUnique(j: Json, k: nat)
    requires j.Dict? && DistinctKeys(j.entries) && k < |j.entries|
    ensures HasKey(j, j.entries[k].0) && Get(j, j.entries[k].0) == j.entries[k].1
  {
  }

  /** The `__name__` of the Python type of a decoded JSON value. */
  function TypeName(j: Json): string
  {
    match j
    case Null => "NoneType"
    case Bool(_) => "bool"
    case Int(_) => "int"
    case Str(_) => "str"
    case List(_) => "list"
    case Dict(_) => "dict"
  }

  /** Lists and dicts are the unhashable JSON values. */
  predicate Hashable(j: Json)
  {
    !j.List? && !j.Dict?
  }

  // ---------------------------------------------------------------- integers

  predicate IsDigit(c: char)
  {
    '0' <= c <= '9'
  }

  function DigitChar(d: nat): (c: char)
    requires d < 10
    ensures IsDigit(c) && (c as int) - ('0' as int) == d
  {
    (('0' as int) + d) as char
  }

  /** The decimal digits of `n`, most significant first, without leading zeros. */
  function NatDigits(n: nat): (s: string)
    ensures |s| >= 1 && forall k :: 0 <= k < |s| ==> IsDigit(s[k])
    ensures |s| > 1 ==> s[0] != '0'
    decreases n
  {
    if n < 10 then [DigitChar(n)] else NatDigits(n / 10) + [DigitChar(n % 10)]
  }

  /** The number a string of decimal digits denotes. */
  function DigitsValue(s: string): nat
    requires forall k :: 0 <= k < |s| ==> IsDigit(s[k])
  {
    if s == [] then 0
    else
      assert IsDigit(s[|s| - 1]);
      DigitsValue(s[..|s| - 1]) * 10 + ((s[|s| - 1] as int) - ('0' as int))
  }

  lemma {:induction false} DigitsRoundTrip(n: nat)
    ensures DigitsValue(NatDigits(n)) == n
    decreases n
  {
    if n >= 10 {
      var s := NatDigits(n);
      assert s[..|s| - 1] == NatDigits(n / 10);
      DigitsRoundTrip(n / 10);
    }
  }

  /** `str(i)` for a Python int: an optional minus sign and the decimal digits. */
  function IntStr(i: int): string
  {
    if i < 0 then "-" + NatDigits(-i) else NatDigits(i)
  }

  /** Reads back what `IntStr` writes. */
  function ParseIntStr(s: string): Option<int>
  {
    if |s| >= 2 && s[0] == '-' && forall k :: 1 <= k < |s| ==> IsDigit(s[k]) then
      Some(-(DigitsValue(s[1..]) as int))
    else if |s| >= 1 && forall k :: 0 <= k < |s| ==> IsDigit(s[k]) then
      Some(DigitsValue(s))
    else
      None
  }

  lemma IntStrRoundTrip(i: int)
    ensures ParseIntStr(IntStr(i)) == Some(i)
  {
    if i < 0 {
      DigitsRoundTrip(-i);
      assert IntStr(i)[1..] == NatDigits(-i);
    } else {
      DigitsRoundTrip(i);
    }
  }

  // ----------------------------------------------------------------- strings

  /** The quote `repr` puts around `s`: double only when `s` has a `'` and no `"`. */
  function QuoteFor(s: string): char
  {
    if '\'' in s && '"' !in s then '"' else '\''
  }

  /** One character of a string literal body, escaped for the quote `q`. */
  function EscapeChar(c: char, q: char): (e: string)
    ensures 1 <= |e| <= 2
    ensures |e| == 1 ==> e[0] == c && c != '\\'
    ensures |e| == 2 ==> e[0] == '\\'
  {
    if c == '\\' || c == q then ['\\', c]
    else if c == '\n' then "\\n"
    else if c == '\r' then "\\r"
    else if c == '\t' then "\\t"
    else [c]
  }

  function Escape(s: string, q: char): string
  {
    if s == [] then [] else EscapeChar(s[0], q) + Escape(s[1..], q)
  }

  /** The character a backslash followed by `c` stands for. */
  function Unescaped(c: char): char
  {
    if c == 'n' then '\n' else if c == 'r' then '\r' else if c == 't' then '\t' else c
  }

  /** Reads back the body of a string literal written by `Escape`. */
  function Unescape(t: string): string
  {
    if t == [] then []
    else if t[0] == '\\' && |t| >= 2 then [Unescaped(t[1])] + Unescape(t[2..])
    else [t[0]] + Unescape(t[1..])
  }

  /** Reading back one escaped character consumes exactly its escape. */
  lemma UnescapeOne(c: char, q: char, rest: string)
    requires q == '\'' || q == '"'
    ensures Unescape(EscapeChar(c, q) + rest) == [c] + Unescape(rest)
  {
  }

  lemma {:induction false} EscapeRoundTrip(s: string, q: char)
    requires q == '\'' || q == '"'
    ensures Unescape(Escape(s, q)) == s
  {
    if s != [] {
      UnescapeOne(s[0], q, Escape(s[1..], q));
      EscapeRoundTrip(s[1..], q);
      assert [s[0]] + s[1..] == s;
    }
  }

  /** `repr(s)` for a Python str. */
  function StrRepr(s: string): (r: string)
    ensures |r| >= 2 && r[0] == r[|r| - 1] == QuoteFor(s)
    ensures Unescape(r[1..|r| - 1]) == s
  {
    var q := QuoteFor(s);
    var r := [q] + Escape(s, q) + [q];
    assert r[1..|r| - 1] == Escape(s, q);
    EscapeRoundTrip(s, q);
    r
  }

  // ---------------------------------------------------------- repr and str

  /** `repr(j)`: how a value is written when it sits inside a list or a dict. */
  function Repr(j: Json): string
    decreases j, 1
  {
    match j
    case Null => "None"
    case Bool(b) => if b then "True" else "False"
    case Int(i) => IntStr(i)
    case Str(s) => StrRepr(s)
    case List(items) => "[" + ReprItems(items) + "]"
    case Dict(entries) => "{" + ReprEntries(entries) + "}"
  }

  /** The elements of a list, each by `repr`, separated by ", ". */
  function ReprItems(items: seq<Json>): string
    decreases items, 0
  {
    if items == [] then ""
    else if |items| == 1 then Repr(items[0])
    else Repr(items[0]) + ", " + ReprItems(items[1..])
  }

  /** The entries of a dict as `key: value` pairs, separated by ", ". */
  function ReprEntries(entries: seq<(string, Json)>): string
    decreases entries, 0
  {
    if entries == [] then ""
    else
      assert entries[0] in entries && entries[0].1 < entries[0];
      var entry := StrRepr(entries[0].0) + ": " + Repr(entries[0].1);
      if |entries| == 1 then entry else entry + ", " + ReprEntries(entries[1..])
  }

  /** `str(j)`, what an f-string writes for `{j}`: a str as itself, anything else by `repr`. */
  function PyStr(j: Json): (r: string)
    ensures j.Str? ==> r == j.s
    ensures j.Int? ==> ParseIntStr(r) == Some(j.i)
    ensures j.Null? ==> r == "None"
  {
    if j.Str? then j.s
    else if j.Int? then IntStrRoundTrip(j.i); Repr(j)
    else Repr(j)
  }
}
