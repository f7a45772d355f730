/** Values shared by every part of the model: optional values, the JSON values that the
    language model's replies parse to, and the string operations of Python that the
    source relies on (str(), `in` on strings, lower(), startswith/endswith, split/join). */
module Common {

  datatype Option<T> = None | Some(value: T)

  /** A parsed JSON value. Numbers are integers; objects keep their keys in order. */
  datatype Json =
    | JNull
    | JBool(b: bool)
    | JNum(n: int)
    | JStr(s: string)
    | JArr(items: seq<Json>)
    | JObj(fields: seq<(string, Json)>)

  /** Python truthiness of a JSON value (`if value:`). */
  predicate Truthy(j: Json)
  {
    match j
    case JNull => false
    case JBool(b) => b
    case JNum(n) => n != 0
    case JStr(s) => s != ""
    case JArr(items) => items != []
    case JObj(fields) => fields != []
  }

  /** `dict.get(key)`: the value of the first field called `key`, if any. */
  function Get(fields: seq<(string, Json)>, key: string): (r: Option<Json>)
    ensures r.None? <==> forall i :: 0 <= i < |fields| ==> fields[i].0 != key
    ensures r.Some? ==> (key, r.value) in fields
  {
    if fields == [] then None
    else if fields[0].0 == key then Some(fields[0].1)
    else Get(fields[1..], key)
  }

  /** The values Python's `for x in j` visits: the items of a list, the keys of an object,
      the one-character strings of a string; None where iteration raises TypeError. */
  function Iterate(j: Json): (r: Option<seq<Json>>)
    ensures j.JArr? ==> r == Some(j.items)
    ensures j.JStr? ==> r.Some? && |r.value| == |j.s|
    ensures j.JStr? ==> forall k :: 0 <= k < |j.s| ==> r.value[k] == JStr([j.s[k]])
    ensures j.JObj? ==> r.Some? && |r.value| == |j.fields|
    ensures j.JObj? ==> forall k :: 0 <= k < |j.fields| ==> r.value[k] == JStr(j.fields[k].0)
    ensures r.None? <==> (j.JNull? || j.JBool? || j.JNum?)
  {
    match j
    case JArr(items) => Some(items)
    case JObj(fields) => Some(seq(|fields|, i requires 0 <= i < |fields| => JStr(fields[i].0)))
    case JStr(s) => Some(seq(|s|, i requires 0 <= i < |s| => JStr([s[i]])))
    case _ => None
  }

  // ---------------------------------------------------------------------------
  // Strings

  predicate StartsWith(s: string, prefix: string)
  {
    |prefix| <= |s| && s[..|prefix|] == prefix
  }

  predicate EndsWith(s: string, suffix: string)
  {
    |suffix| <= |s| && s[|s| - |suffix|..] == suffix
  }

  /** Python's `needle in haystack` on strings. */
  predicate Contains(haystack: string, needle: string)
  {
    StartsWith(haystack, needle) || (haystack != [] && Contains(haystack[1..], needle))
  }

  /** `str.lower()` on ASCII letters; other characters are kept. */
  function Lower(s: string): (r: string)
    ensures |r| == |s|
    ensures forall i :: 0 <= i < |s| ==> r[i] == LowerChar(s[i])
  {
    seq(|s|, i requires 0 <= i < |s| => LowerChar(s[i]))
  }

  function LowerChar(c: char): char
  {
    if 'A' <= c <= 'Z' then (c as int - 'A' as int + 'a' as int) as char else c
  }

  /** `sep.join(parts)`. */
  function Join(sep: string, parts: seq<string>): string
  {
    if parts == [] then ""
    else if |parts| == 1 then parts[0]
    else parts[0] + sep + Join(sep, parts[1..])
  }

  /** Joining one more part appends the separator and that part. */
  lemma {:induction false} JoinAppend(sep: string, parts: seq<string>, last: string)
    requires parts != []
    ensures Join(sep, parts + [last]) == Join(sep, parts) + sep + last
    decreases |parts|
  {
    if |parts| == 1 {
      assert (parts + [last])[1..] == [last];
    } else {
      assert (parts + [last])[1..] == parts[1..] + [last];
      JoinAppend(sep, parts[1..], last);
    }
  }

  /** `text.find(c)`: the first index of `c`, or -1. */
  function Find(text: string, c: char): (r: int)
    ensures -1 <= r < |text|
    ensures r >= 0 ==> text[r] == c && forall k :: 0 <= k < r ==> text[k] != c
    ensures r == -1 ==> forall k :: 0 <= k < |text| ==> text[k] != c
  {
    if text == [] then -1
    else if text[0] == c then 0
    else var k := Find(text[1..], c); if k == -1 then -1 else k + 1
  }

  /** `text.rfind(c)`: the last index of `c`, or -1. */
  function RFind(text: string, c: char): (r: int)
    ensures -1 <= r < |text|
    ensures r >= 0 ==> text[r] == c && forall k :: r < k < |text| ==> text[k] != c
    ensures r == -1 ==> forall k :: 0 <= k < |text| ==> text[k] != c
  {
    if text == [] then -1
    else if text[|text| - 1] == c then |text| - 1
    else RFind(text[..|text| - 1], c)
  }

  /** No element occurs twice. */
  predicate Distinct<T(==)>(s: seq<T>)
  {
    forall i, j :: 0 <= i < j < |s| ==> s[i] != s[j]
  }

  /** The elements of `s` in order of first occurrence, each once: one ordering of
      Python's `list(set(s))`. */
  function Dedup(s: seq<string>): (r: seq<string>)
    ensures Distinct(r)
    ensures forall x :: x in r <==> x in s
  {
    if s == [] then []
    else
      var rest := Dedup(s[..|s| - 1]);
      if s[|s| - 1] in rest then rest else rest + [s[|s| - 1]]
  }

  // ---------------------------------------------------------------------------
  // Python's str() of a JSON value, as used when a value is put into an f-string

  /** `str(j)`: a string is itself; everything else is its repr. */
  function PyStr(j: Json): string
  {
    if j.JStr? then j.s else Repr(j)
  }

  /** `repr(j)` of the Python value json.loads builds. */
  function Repr(j: Json): string
    decreases j
  {
    match j
    case JNull => "None"
    case JBool(b) => if b then "True" else "False"
    case JNum(n) => IntToString(n)
    case JStr(s) => QuoteStr(s)
    case JArr(items) =>
      "[" + Join(", ", seq(|items|, i requires 0 <= i < |items| => Repr(items[i]))) + "]"
    case JObj(fields) =>
      "{" + Join(", ", seq(|fields|, i requires 0 <= i < |fields| =>
                             QuoteStr(fields[i].0) + ": " + Repr(fields[i].1))) + "}"
  }

  /** repr of a str: single quotes unless the text holds a single quote and no double one. */
  function QuoteStr(s: string): string
  {
    var q := if '\'' in s && '"' !in s then '"' else '\'';
    [q] + Escape(s, q) + [q]
  }

  function Escape(s: string, q: char): string
  {
    if s == [] then ""
    else
      var c := s[0];
      var e := if c == '\\' then "\\\\"
               else if c == '\n' then "\\n"
               else if c == '\r' then "\\r"
               else if c == '\t' then "\\t"
               else if c == q then ['\\', q]
               else [c];
      e + Escape(s[1..], q)
  }

  function IntToString(n: int): string
  {
    if n < 0 then "-" + NatToString(-n) else NatToString(n)
  }

  function NatToString(n: nat): string
  {
    if n < 10 then [DigitChar(n)] else NatToString(n / 10) + [DigitChar(n % 10)]
  }

  function DigitChar(d: nat): char
    requires d < 10
  {
    ('0' as int + d) as char
  }
}
