/**
 * Python values as the agent passes them around: the JSON-shaped data of
 * plans, LLM replies, stored knowledge and action results.
 * A Python `dict` is an ordered list of (key, value) pairs (dicts keep
 * insertion order); its keys are distinct in every value the program builds.
 * Floating-point numbers are not part of this model.
 */
module Values {
  import opened Wrappers
  import opened Text

  datatype Json =
    | JNull                              // None / null
    | JBool(b: bool)
    | JInt(i: int)
    | JStr(s: string)
    | JList(items: seq<Json>)
    | JObj(fields: seq<(string, Json)>)

  type Dict = seq<(string, Json)>

  /** Python truthiness: None, False, 0, "", [] and {} are false. */
  predicate Truthy(j: Json) {
    match j
    case JNull => false
    case JBool(b) => b
    case JInt(i) => i != 0
    case JStr(s) => s != ""
    case JList(xs) => xs != []
    case JObj(fs) => fs != []
  }

  function Keys(d: Dict): set<string> {
    set p | p in d :: p.0
  }

  /** `d[k]` when `k in d`, as `None` otherwise. */
  function Lookup(d: Dict, k: string): (r: Option<Json>)
    ensures r.Some? <==> k in Keys(d)
    ensures r.Some? ==> (k, r.value) in d
  {
    if d == [] then None
    else if d[0].0 == k then Some(d[0].1)
    else
      var r := Lookup(d[1..], k);
      assert Keys(d) == {d[0].0} + Keys(d[1..]);
      r
  }

  /** `d.get(k, default)`. */
  function Get(d: Dict, k: string, default: Json): Json {
    Lookup(d, k).GetOr(default)
  }

  /** `d[k] = v`: an existing key keeps its position, a new key goes to the end. */
  function Set(d: Dict, k: string, v: Json): (r: Dict)
    ensures Keys(r) == Keys(d) + {k}
    ensures Lookup(r, k) == Some(v)
    ensures forall k' :: k' != k ==> Lookup(r, k') == Lookup(d, k')
    ensures k in Keys(d) ==> |r| == |d|
    ensures k !in Keys(d) ==> r == d + [(k, v)]
  {
    if d == [] then [(k, v)]
    else if d[0].0 == k then
      assert Keys(d) == {k} + Keys(d[1..]);
      assert Keys([(k, v)] + d[1..]) == {k} + Keys(d[1..]);
      [(k, v)] + d[1..]
    else
      var rest := Set(d[1..], k, v);
      assert Keys(d) == {d[0].0} + Keys(d[1..]);
      assert Keys([d[0]] + rest) == {d[0].0} + Keys(rest);
      [d[0]] + rest
  }

  /** A bool or an int: the values Python adds and compares as numbers. */
  predicate IsNumber(j: Json) {
    j.JBool? || j.JInt?
  }

  /** The number a bool or an int stands for (`True == 1` in Python). */
  function NumberOf(j: Json): int
    requires IsNumber(j)
  {
    match j
    case JBool(b) => if b then 1 else 0
    case JInt(i) => i
  }

  /** Python's `==` on JSON values: bools and ints compare as numbers, dicts ignore key order. */
  predicate PyEq(a: Json, b: Json)
    decreases a
  {
    match a
    case JNull => b.JNull?
    case JBool(_) => (b.JBool? || b.JInt?) && NumberOf(a) == NumberOf(b)
    case JInt(_) => (b.JBool? || b.JInt?) && NumberOf(a) == NumberOf(b)
    case JStr(s) => b.JStr? && b.s == s
    case JList(xs) =>
      b.JList? && |xs| == |b.items| &&
      forall i :: 0 <= i < |xs| ==> PyEq(xs[i], b.items[i])
    case JObj(fs) =>
      b.JObj? && Keys(fs) == Keys(b.fields) &&
      forall k :: k in Keys(fs) ==> PyEq(Lookup(fs, k).value, Lookup(b.fields, k).value)
  }

  lemma {:induction false} PyEqReflexive(a: Json)
    ensures PyEq(a, a)
    decreases a
  {
    match a
    case JList(xs) =>
      forall i | 0 <= i < |xs| ensures PyEq(xs[i], xs[i]) { PyEqReflexive(xs[i]); }
    case JObj(fs) =>
      forall k | k in Keys(fs) ensures PyEq(Lookup(fs, k).value, Lookup(fs, k).value) {
        PyEqReflexive(Lookup(fs, k).value);
      }
    case _ =>
  }

  /** Python's `key in container` for a string key: dict keys, list members
      (by `==`) or a substring; None when the container does not support `in`
      with a string (a TypeError). */
  function In(key: string, container: Json): (r: Option<bool>)
    ensures container.JObj? ==> r == Some(key in Keys(container.fields))
    ensures container.JStr? ==> r == Some(Contains(container.s, key))
    ensures r.None? <==> !(container.JObj? || container.JStr? || container.JList?)
  {
    match container
    case JObj(fs) => Some(key in Keys(fs))
    case JStr(s) => Some(Contains(s, key))
    case JList(xs) => Some(exists i :: 0 <= i < |xs| && PyEq(JStr(key), xs[i]))
    case _ => None
  }

  /** The items a `for` loop takes from a value: a list's items, a string's
      characters or a dict's keys; None when the value is not iterable. */
  function Iterate(j: Json): (r: Option<seq<Json>>)
    ensures j.JList? ==> r == Some(j.items)
  {
    match j
    case JList(xs) => Some(xs)
    case JStr(s) => Some(seq(|s|, i requires 0 <= i < |s| => JStr([s[i]])))
    case JObj(fs) => Some(seq(|fs|, i requires 0 <= i < |fs| => JStr(fs[i].0)))
    case _ => None
  }

  /** A scalar: None, a bool, an int or a string. */
  predicate IsScalar(j: Json) {
    j.JNull? || j.JBool? || j.JInt? || j.JStr?
  }

  /** `str(j)` for a scalar, as an f-string formats it. */
  function Show(j: Json): string
    requires IsScalar(j)
  {
    match j
    case JNull => "None"
    case JBool(b) => if b then "True" else "False"
    case JInt(i) => IntToString(i)
    case JStr(s) => s
  }

  /** `type(j).__name__`. */
  function TypeName(j: Json): string {
    match j
    case JNull => "NoneType"
    case JBool(_) => "bool"
    case JInt(_) => "int"
    case JStr(_) => "str"
    case JList(_) => "list"
    case JObj(_) => "dict"
  }

  /** `repr(j)`; strings are shown in single quotes without escaping. */
  function Repr(j: Json): string
    decreases j
  {
    match j
    case JStr(s) => "'" + s + "'"
    case JList(xs) => "[" + Join(seq(|xs|, i requires 0 <= i < |xs| => Repr(xs[i])), ", ") + "]"
    case JObj(fs) => "{" + Join(seq(|fs|, i requires 0 <= i < |fs| => "'" + fs[i].0 + "': " + Repr(fs[i].1)), ", ") + "}"
    case _ => Show(j)
  }

  /** `str(j)`, as an f-string formats it. */
  function Str(j: Json): string {
    if IsScalar(j) then Show(j) else Repr(j)
  }

  function HexDigit(d: nat): char
    requires d < 16
  {
    "0123456789abcdef"[d]
  }

  /** Four lower-case hex digits, as `'{0:04x}'` prints a code unit. */
  function Hex4(n: nat): string
    requires n < 0x10000
  {
    [HexDigit(n / 0x1000), HexDigit(n / 0x100 % 16), HexDigit(n / 0x10 % 16), HexDigit(n % 16)]
  }

  /** One character of a JSON string literal, with `ensure_ascii` escaping. */
  function EscapeChar(c: char): string {
    if c == '"' then "\\\""
    else if c == '\\' then "\\\\"
    else if c == '\n' then "\\n"
    else if c == '\r' then "\\r"
    else if c == '\t' then "\\t"
    else if c == '\U{8}' then "\\b"
    else if c == '\U{c}' then "\\f"
    else if ' ' <= c <= '~' then [c]
    else if (c as int) < 0x10000 then "\\u" + Hex4(c as int)
    else
      var n := c as int - 0x10000;
      "\\u" + Hex4(0xd800 + n / 0x400) + "\\u" + Hex4(0xdc00 + n % 0x400)
  }

  function Quote(s: string): string {
    "\"" + Concat(seq(|s|, i requires 0 <= i < |s| => EscapeChar(s[i]))) + "\""
  }

  function Concat(parts: seq<string>): string {
    if parts == [] then "" else parts[0] + Concat(parts[1..])
  }

  /** `json.dumps(j)` with its default settings (`", "` and `": "` separators, ASCII-only output). */
  function Dumps(j: Json): string
    decreases j
  {
    match j
    case JNull => "null"
    case JBool(b) => if b then "true" else "false"
    case JInt(i) => IntToString(i)
    case JStr(s) => Quote(s)
    case JList(xs) => "[" + Join(seq(|xs|, i requires 0 <= i < |xs| => Dumps(xs[i])), ", ") + "]"
    case JObj(fs) =>
      "{" + Join(seq(|fs|, i requires 0 <= i < |fs| => Quote(fs[i].0) + ": " + Dumps(fs[i].1)), ", ") + "}"
  }
}
