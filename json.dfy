/**
 * The JSON text `json.dumps(value, sort_keys=True)` produces for the values a
 * task can be called with: None, booleans, integers, strings, lists and
 * dicts.  A dict is an ordered sequence of key/value entries, as Python
 * keeps insertion order.  Output uses Python's default separators (", " and
 * ": ") and its default ASCII-only string escaping.
 */
module Json {
  import opened KeyOrder

  datatype Json =
    | Null
    | Bool(b: bool)
    | Int(i: int)
    | Str(s: string)
    | Array(items: seq<Json>)
    | Object(entries: seq<Entry<Json>>)

  /** The value with every dict's entries sorted by key, at every depth:
      the part of a value that `sort_keys=True` lets show in the text. */
  function Canon(j: Json): (r: Json)
    ensures j.Array? <==> r.Array?
    ensures j.Object? <==> r.Object?
    ensures j.Array? ==> |r.items| == |j.items|
    ensures j.Object? ==> |r.entries| == |j.entries|
    ensures !j.Array? && !j.Object? ==> r == j
    decreases j
  {
    match j
    case Array(items) => Array(CanonItems(items))
    case Object(es) =>
      var canon := CanonEntries(es);
      SortPermutes(canon);
      assert |SortByKey(canon)| == |multiset(SortByKey(canon))| == |multiset(canon)|;
      Object(SortByKey(canon))
    case _ => j
  }

  function CanonItems(items: seq<Json>): (r: seq<Json>)
    decreases items
    ensures |r| == |items|
  {
    if items == [] then [] else [Canon(items[0])] + CanonItems(items[1..])
  }

  function CanonEntries(es: seq<Entry<Json>>): (r: seq<Entry<Json>>)
    decreases es
    ensures |r| == |es|
  {
    if es == [] then [] else [Entry(es[0].key, Canon(es[0].value))] + CanonEntries(es[1..])
  }

  // ----- text of scalars -----

  predicate IsDigit(c: char)
  {
    '0' <= c <= '9'
  }

  function DigitChar(d: nat): (c: char)
    requires d < 10
    ensures IsDigit(c)
  {
    ('0' as int + d) as char
  }

  /** Decimal digits of `n`, most significant first, without leading zeros. */
  function NatText(n: nat): (r: string)
    ensures r != [] && forall k :: 0 <= k < |r| ==> IsDigit(r[k])
  {
    if n < 10 then [DigitChar(n)] else NatText(n / 10) + [DigitChar(n % 10)]
  }

  /** `repr` of a Python int. */
  function IntText(i: int): string
  {
    if i < 0 then "-" + NatText(-i) else NatText(i)
  }

  function HexDigit(d: nat): char
    requires d < 16
  {
    if d < 10 then ('0' as int + d) as char else ('a' as int + d - 10) as char
  }

  /** The last `width` hexadecimal digits of `n`, lower-case, most
      significant first. */
  function HexText(n: nat, width: nat): (r: string)
    ensures |r| == width
  {
    if width == 0 then "" else HexText(n / 16, width - 1) + [HexDigit(n % 16)]
  }

  /** Four lower-case hexadecimal digits, as `'{0:04x}'.format(n)`. */
  function Hex4(n: nat): (r: string)
    requires n < 0x10000
    ensures |r| == 4
  {
    HexText(n, 4)
  }

  /** The escape json writes for one character when `ensure_ascii` holds:
      named escapes for the quote, the backslash and five control characters,
      printable ASCII as is, every other code point as `\uXXXX`, and code
      points beyond the Basic Multilingual Plane as a UTF-16 surrogate pair. */
  function EscapeChar(c: char): (r: string)
    ensures r == [c] <==> 0x20 <= c as int <= 0x7E && c != '"' && c != '\\'
    ensures r != [c] ==> |r| >= 2 && r[0] == '\\'
  {
    if c == '"' then "\\\""
    else if c == '\\' then "\\\\"
    else if c == '\n' then "\\n"
    else if c == '\r' then "\\r"
    else if c == '\t' then "\\t"
    else if c as int == 0x08 then "\\b"
    else if c as int == 0x0C then "\\f"
    else if 0x20 <= c as int <= 0x7E then [c]
    else if c as int < 0x10000 then "\\u" + Hex4(c as int)
    else
      var v := c as int - 0x10000;
      "\\u" + Hex4(0xD800 + v / 0x400) + "\\u" + Hex4(0xDC00 + v % 0x400)
  }

  function EscapeString(s: string): string
  {
    if s == [] then "" else EscapeChar(s[0]) + EscapeString(s[1..])
  }

  function Quote(s: string): string
  {
    "\"" + EscapeString(s) + "\""
  }

  // ----- text of values, entries written in the order given -----

  function Emit(j: Json): (r: string)
    ensures r != []
    ensures r[0] == '[' <==> j.Array?
    ensures r[0] == '{' <==> j.Object?
    ensures r[0] == '"' <==> j.Str?
    decreases j
  {
    match j
    case Null => "null"
    case Bool(b) => if b then "true" else "false"
    case Int(i) => IntText(i)
    case Str(s) => Quote(s)
    case Array(items) => "[" + EmitItems(items) + "]"
    case Object(es) => "{" + EmitEntries(es) + "}"
  }

  function EmitItems(items: seq<Json>): string
    decreases items
  {
    if items == [] then ""
    else if |items| == 1 then Emit(items[0])
    else Emit(items[0]) + ", " + EmitItems(items[1..])
  }

  function EmitEntry(e: Entry<Json>): string
    decreases e
  {
    Quote(e.key) + ": " + Emit(e.value)
  }

  function EmitEntries(es: seq<Entry<Json>>): string
    decreases es
  {
    if es == [] then ""
    else if |es| == 1 then EmitEntry(es[0])
    else EmitEntry(es[0]) + ", " + EmitEntries(es[1..])
  }

  /** `json.dumps(j, sort_keys=True)`. */
  function Dumps(j: Json): (r: string)
    ensures r != []
    ensures r[0] == '[' <==> j.Array?
    ensures r[0] == '{' <==> j.Object?
    ensures r[0] == '"' <==> j.Str?
  {
    Emit(Canon(j))
  }
}
