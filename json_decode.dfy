/**
 * A reader for the text `Json.Emit` writes, used to show that the
 * serialisation loses nothing: reading back the text of a value yields the
 * value, so two values with the same `json.dumps` text have the same
 * canonical form, and the text of a dict does not depend on the order its
 * keys were inserted in.
 */
module JsonDecode {
  import opened Wrappers
  import opened KeyOrder
  import opened Json

  predicate IsHex(c: char)
  {
    '0' <= c <= '9' || 'a' <= c <= 'f' || 'A' <= c <= 'F'
  }

  function HexValue(c: char): (v: nat)
    requires IsHex(c)
    ensures v < 16
  {
    if '0' <= c <= '9' then c as int - '0' as int
    else if 'a' <= c <= 'f' then c as int - 'a' as int + 10
    else c as int - 'A' as int + 10
  }

  predicate IsHex4(s: string)
  {
    |s| == 4 && IsHex(s[0]) && IsHex(s[1]) && IsHex(s[2]) && IsHex(s[3])
  }

  function Hex4Value(s: string): (v: nat)
    requires IsHex4(s)
    ensures v < 0x10000
  {
    0x1000 * HexValue(s[0]) + 0x100 * HexValue(s[1]) + 0x10 * HexValue(s[2]) + HexValue(s[3])
  }

  /** Reads one character of a string body: a plain character, a named
      escape, a `\uXXXX` escape or a surrogate pair of them. */
  function DecodeChar(s: string): (r: Option<(char, string)>)
    ensures r.Some? ==> |r.value.1| < |s|
  {
    if s == [] then None
    else if s[0] != '\\' then Some((s[0], s[1..]))
    else if |s| < 2 then None
    else if s[1] == '"' then Some(('"', s[2..]))
    else if s[1] == '\\' then Some(('\\', s[2..]))
    else if s[1] == 'n' then Some(('\n', s[2..]))
    else if s[1] == 'r' then Some(('\r', s[2..]))
    else if s[1] == 't' then Some(('\t', s[2..]))
    else if s[1] == 'b' then Some((0x08 as char, s[2..]))
    else if s[1] == 'f' then Some((0x0C as char, s[2..]))
    else if s[1] != 'u' || |s| < 6 || !IsHex4(s[2..6]) then None
    else
      var u := Hex4Value(s[2..6]);
      if u < 0xD800 || 0xE000 <= u then Some((u as char, s[6..]))
      else if 0xDC00 <= u then None
      else if |s| < 12 || s[6] != '\\' || s[7] != 'u' || !IsHex4(s[8..12]) then None
      else
        var l := Hex4Value(s[8..12]);
        if l < 0xDC00 || 0xE000 <= l then None
        else Some(((0x10000 + (u - 0xD800) * 0x400 + (l - 0xDC00)) as char, s[12..]))
  }

  /** Reads a string body up to and including its closing quote. */
  function ParseChars(s: string): (r: Option<(string, string)>)
    ensures r.Some? ==> |r.value.1| < |s|
    decreases |s|
  {
    if s == [] then None
    else if s[0] == '"' then Some(("", s[1..]))
    else match DecodeChar(s)
      case None => None
      case Some((c, t)) =>
        match ParseChars(t)
        case None => None
        case Some((body, u)) => Some(([c] + body, u))
  }

  /** Length of the run of digits `s` starts with. */
  function DigitRun(s: string): (k: nat)
    ensures k <= |s|
    ensures forall i :: 0 <= i < k ==> IsDigit(s[i])
    ensures k < |s| ==> !IsDigit(s[k])
  {
    if s != [] && IsDigit(s[0]) then 1 + DigitRun(s[1..]) else 0
  }

  function DigitsValue(d: string): nat
    requires forall i :: 0 <= i < |d| ==> IsDigit(d[i])
  {
    if d == [] then 0
    else
      assert IsDigit(d[|d| - 1]);
      DigitsValue(d[..|d| - 1]) * 10 + (d[|d| - 1] as int - '0' as int)
  }

  function ParseNat(s: string): (r: Option<(nat, string)>)
    ensures r.Some? ==> |r.value.1| < |s|
  {
    var k := DigitRun(s);
    if k == 0 then None else Some((DigitsValue(s[..k]), s[k..]))
  }

  /** Reads one value from the front of `s`, returning it and what follows. */
  function ParseValue(s: string): (r: Option<(Json, string)>)
    ensures r.Some? ==> |r.value.1| < |s|
    decreases |s|, 0
  {
    if s == [] then None
    else if s[0] == 'n' then
      if |s| >= 4 && s[1] == 'u' && s[2] == 'l' && s[3] == 'l' then Some((Null, s[4..])) else None
    else if s[0] == 't' then
      if |s| >= 4 && s[1] == 'r' && s[2] == 'u' && s[3] == 'e' then Some((Bool(true), s[4..])) else None
    else if s[0] == 'f' then
      if |s| >= 5 && s[1] == 'a' && s[2] == 'l' && s[3] == 's' && s[4] == 'e' then Some((Bool(false), s[5..])) else None
    else if s[0] == '"' then
      match ParseChars(s[1..])
      case None => None
      case Some((body, t)) => Some((Str(body), t))
    else if s[0] == '[' then
      if |s| >= 2 && s[1] == ']' then Some((Array([]), s[2..]))
      else
        match ParseItems(s[1..])
        case None => None
        case Some((items, t)) => Some((Array(items), t))
    else if s[0] == '{' then
      if |s| >= 2 && s[1] == '}' then Some((Object([]), s[2..]))
      else
        match ParseEntries(s[1..])
        case None => None
        case Some((es, t)) => Some((Object(es), t))
    else if s[0] == '-' then
      match ParseNat(s[1..])
      case None => None
      case Some((n, t)) => Some((Int(-(n as int)), t))
    else
      match ParseNat(s)
      case None => None
      case Some((n, t)) => Some((Int(n), t))
  }

  /** Reads the items of a non-empty list and its closing bracket. */
  function ParseItems(s: string): (r: Option<(seq<Json>, string)>)
    ensures r.Some? ==> |r.value.1| < |s|
    decreases |s|, 1
  {
    match ParseValue(s)
    case None => None
    case Some((v, t)) =>
      if t != [] && t[0] == ']' then Some(([v], t[1..]))
      else if |t| >= 2 && t[0] == ',' && t[1] == ' ' then
        match ParseItems(t[2..])
        case None => None
        case Some((vs, u)) => Some(([v] + vs, u))
      else None
  }

  /** Reads the entries of a non-empty object and its closing brace. */
  function ParseEntries(s: string): (r: Option<(seq<Entry<Json>>, string)>)
    ensures r.Some? ==> |r.value.1| < |s|
    decreases |s|, 1
  {
    if s == [] || s[0] != '"' then None
    else
      match ParseChars(s[1..])
      case None => None
      case Some((k, t)) =>
        if |t| < 2 || t[0] != ':' || t[1] != ' ' then None
        else
          match ParseValue(t[2..])
          case None => None
          case Some((v, u)) =>
            if u != [] && u[0] == '}' then Some(([Entry(k, v)], u[1..]))
            else if |u| >= 2 && u[0] == ',' && u[1] == ' ' then
              match ParseEntries(u[2..])
              case None => None
              case Some((es, w)) => Some(([Entry(k, v)] + es, w))
            else None
  }

  // ----- reading back what Emit writes -----

  /** What may follow a value's text without changing how it reads: an
      integer's digits must not run on. */
  predicate Delimited(rest: string)
  {
    rest == [] || !IsDigit(rest[0])
  }

  lemma HexDigitValue(d: nat)
    requires d < 16
    ensures IsHex(HexDigit(d)) && HexValue(HexDigit(d)) == d
  {
  }

  /** The place values of a number below 0x10000 in base 16. */
  lemma HexPlaces(n: nat)
    requires n < 0x10000
    ensures n / 16 / 16 / 16 < 16
    ensures 0x1000 * (n / 16 / 16 / 16) + 0x100 * (n / 16 / 16 % 16) + 0x10 * (n / 16 % 16) + n % 16 == n
  {
    var q1 := n / 16;
    var q2 := q1 / 16;
    var q3 := q2 / 16;
    assert n == 16 * q1 + n % 16;
    assert q1 == 16 * q2 + q1 % 16;
    assert q2 == 16 * q3 + q2 % 16;
  }

  lemma Hex4RoundTrip(n: nat)
    requires n < 0x10000
    ensures IsHex4(Hex4(n)) && Hex4Value(Hex4(n)) == n
  {
    var q1 := n / 16;
    var q2 := q1 / 16;
    var q3 := q2 / 16;
    HexPlaces(n);
    assert Hex4(n) == HexText(q1, 3) + [HexDigit(n % 16)];
    assert HexText(q1, 3) == HexText(q2, 2) + [HexDigit(q1 % 16)];
    assert HexText(q2, 2) == HexText(q3, 1) + [HexDigit(q2 % 16)];
    assert HexText(q3, 1) == HexText(q3 / 16, 0) + [HexDigit(q3 % 16)];
    assert q3 % 16 == q3;
    HexDigitValue(q3);
    HexDigitValue(q2 % 16);
    HexDigitValue(q1 % 16);
    HexDigitValue(n % 16);
    assert Hex4(n) == [HexDigit(q3), HexDigit(q2 % 16), HexDigit(q1 % 16), HexDigit(n % 16)];
  }

  lemma HexEscapeRoundTrip(n: nat, t: string)
    requires n < 0x10000
    ensures "\\u" + Hex4(n) + t == ['\\', 'u'] + Hex4(n) + t
    ensures var s := "\\u" + Hex4(n) + t; |s| >= 6 && s[2..6] == Hex4(n) && s[6..] == t
  {
  }

  /** Decoding a `\\uXXXX` escape outside the surrogate range. */
  lemma DecodeBmp(s: string, u: nat)
    requires |s| >= 6 && s[0] == '\\' && s[1] == 'u' && IsHex4(s[2..6]) && Hex4Value(s[2..6]) == u
    requires u < 0xD800 || 0xE000 <= u
    ensures DecodeChar(s) == Some((u as char, s[6..]))
  {
  }

  /** Decoding a surrogate pair of `\\uXXXX` escapes. */
  lemma DecodePair(s: string, hi: nat, lo: nat, c: char)
    requires |s| >= 12 && s[0] == '\\' && s[1] == 'u' && IsHex4(s[2..6]) && Hex4Value(s[2..6]) == hi
    requires s[6] == '\\' && s[7] == 'u' && IsHex4(s[8..12]) && Hex4Value(s[8..12]) == lo
    requires 0xD800 <= hi < 0xDC00 && 0xDC00 <= lo < 0xE000
    requires c as int == 0x10000 + (hi - 0xD800) * 0x400 + (lo - 0xDC00)
    ensures DecodeChar(s) == Some((c, s[12..]))
  {
  }

  /** The high and low halves of a code point beyond the Basic
      Multilingual Plane. */
  lemma SurrogateSplit(v: int)
    requires 0 <= v < 0x100000
    ensures 0 <= v / 0x400 < 0x400 && 0 <= v % 0x400 < 0x400
    ensures (v / 0x400) * 0x400 + v % 0x400 == v
  {
  }

  lemma BmpEscapeRoundTrip(c: char, t: string)
    requires !(0x20 <= c as int <= 0x7E) && c as int < 0x10000
    ensures DecodeChar("\\u" + Hex4(c as int) + t) == Some((c, t))
  {
    var n := c as int;
    var s := "\\u" + Hex4(n) + t;
    Hex4RoundTrip(n);
    HexEscapeRoundTrip(n, t);
    assert s[0] == '\\' && s[1] == 'u';
    DecodeBmp(s, n);
  }

  /** Where the pieces of a two-escape surrogate pair sit in its text. */
  lemma PairText(hi: nat, lo: nat, t: string)
    requires hi < 0x10000 && lo < 0x10000
    ensures var s := "\\u" + Hex4(hi) + "\\u" + Hex4(lo) + t;
      |s| >= 12 && s[0] == '\\' && s[1] == 'u' && s[2..6] == Hex4(hi)
      && s[6] == '\\' && s[7] == 'u' && s[8..12] == Hex4(lo) && s[12..] == t
  {
    var tail := "\\u" + Hex4(lo) + t;
    var s := "\\u" + Hex4(hi) + "\\u" + Hex4(lo) + t;
    assert s == "\\u" + Hex4(hi) + tail;
    HexEscapeRoundTrip(hi, tail);
    HexEscapeRoundTrip(lo, t);
    assert s[6..] == tail;
    assert s[6] == tail[0] && s[7] == tail[1];
    assert s[8..12] == tail[2..6];
  }

  lemma AstralEscapeRoundTrip(c: char, t: string)
    requires c as int >= 0x10000
    ensures var v := c as int - 0x10000;
      DecodeChar("\\u" + Hex4(0xD800 + v / 0x400) + "\\u" + Hex4(0xDC00 + v % 0x400) + t) == Some((c, t))
  {
    var v := c as int - 0x10000;
    SurrogateSplit(v);
    var hi, lo := 0xD800 + v / 0x400, 0xDC00 + v % 0x400;
    Hex4RoundTrip(hi);
    Hex4RoundTrip(lo);
    var s := "\\u" + Hex4(hi) + "\\u" + Hex4(lo) + t;
    PairText(hi, lo, t);
    DecodePair(s, hi, lo, c);
  }

  /** Every escape decodes to the character it was written for. */
  lemma EscapeRoundTrip(c: char, t: string)
    ensures DecodeChar(EscapeChar(c) + t) == Some((c, t))
  {
    var e := EscapeChar(c);
    var n := c as int;
    if c == '"' || c == '\\' || c == '\n' || c == '\r' || c == '\t' || n == 0x08 || n == 0x0C {
      assert |e| == 2 && (e + t)[2..] == t;
    } else if 0x20 <= n <= 0x7E {
      assert (e + t)[1..] == t;
    } else if n < 0x10000 {
      BmpEscapeRoundTrip(c, t);
    } else {
      AstralEscapeRoundTrip(c, t);
    }
  }

  /** No escape starts with the closing quote. */
  lemma EscapeNotQuote(c: char, tail: string)
    ensures var u := EscapeChar(c) + tail; u != [] && u[0] != '"'
  {
  }

  lemma EscapeStringCons(s: string, t: string)
    requires s != []
    ensures EscapeString(s) + "\"" + t == EscapeChar(s[0]) + (EscapeString(s[1..]) + "\"" + t)
  {
  }

  /** `ParseChars` on a text that starts with one decodable character. */
  lemma ParseCharsCons(u: string, c: char, tail: string, body: string, w: string)
    requires u != [] && u[0] != '"' && DecodeChar(u) == Some((c, tail))
    requires ParseChars(tail) == Some((body, w))
    ensures ParseChars(u) == Some(([c] + body, w))
  {
  }

  /** A string body reads back up to its closing quote. */
  lemma {:induction false} StringRoundTrip(s: string, t: string)
    ensures ParseChars(EscapeString(s) + "\"" + t) == Some((s, t))
  {
    if s == [] {
      assert EscapeString(s) + "\"" + t == "\"" + t;
    } else {
      var tail := EscapeString(s[1..]) + "\"" + t;
      var u := EscapeChar(s[0]) + tail;
      EscapeStringCons(s, t);
      EscapeNotQuote(s[0], tail);
      EscapeRoundTrip(s[0], tail);
      StringRoundTrip(s[1..], t);
      ParseCharsCons(u, s[0], tail, s[1..], t);
      HeadTail(s);
    }
  }

  lemma {:induction false} DigitRunOfDigits(d: string, rest: string)
    requires forall i :: 0 <= i < |d| ==> IsDigit(d[i])
    requires Delimited(rest)
    ensures DigitRun(d + rest) == |d|
  {
    if d != [] {
      assert (d + rest)[1..] == d[1..] + rest;
      DigitRunOfDigits(d[1..], rest);
    }
  }

  lemma {:induction false} NatTextValue(n: nat)
    ensures DigitsValue(NatText(n)) == n
  {
    if n >= 10 {
      var d := NatText(n);
      assert d[..|d| - 1] == NatText(n / 10);
      NatTextValue(n / 10);
    }
  }

  lemma NatRoundTrip(n: nat, rest: string)
    requires Delimited(rest)
    ensures ParseNat(NatText(n) + rest) == Some((n, rest))
  {
    var d := NatText(n);
    DigitRunOfDigits(d, rest);
    assert (d + rest)[..|d|] == d;
    assert (d + rest)[|d|..] == rest;
    NatTextValue(n);
  }

  /** The text of a value is never empty and never starts with a closing
      bracket or brace. */
  lemma EmitStart(j: Json)
    ensures Emit(j) != [] && Emit(j)[0] != ']' && Emit(j)[0] != '}'
  {
    match j
    case Int(i) =>
      if i >= 0 {
        assert IsDigit(NatText(i)[0]);
      }
    case _ =>
  }

  lemma NullRoundTrip(rest: string)
    ensures ParseValue("null" + rest) == Some((Null, rest))
  {
    var s := "null" + rest;
    assert s[0] == 'n' && s[1] == 'u' && s[2] == 'l' && s[3] == 'l' && s[4..] == rest;
  }

  lemma TrueRoundTrip(rest: string)
    ensures ParseValue("true" + rest) == Some((Bool(true), rest))
  {
    var s := "true" + rest;
    assert s[0] == 't' && s[1] == 'r' && s[2] == 'u' && s[3] == 'e' && s[4..] == rest;
  }

  lemma FalseRoundTrip(rest: string)
    ensures ParseValue("false" + rest) == Some((Bool(false), rest))
  {
    var s := "false" + rest;
    assert s[0] == 'f' && s[1] == 'a' && s[2] == 'l' && s[3] == 's' && s[4] == 'e' && s[5..] == rest;
  }

  /** `ParseValue` on a text that starts with a minus sign. */
  lemma ParseValueMinus(s: string, n: nat, t: string)
    requires s != [] && s[0] == '-' && ParseNat(s[1..]) == Some((n, t))
    ensures ParseValue(s) == Some((Int(-(n as int)), t))
  {
  }

  lemma NegativeRoundTrip(n: nat, rest: string)
    requires Delimited(rest) && n > 0
    ensures ParseValue("-" + NatText(n) + rest) == Some((Int(-(n as int)), rest))
  {
    var t := NatText(n) + rest;
    var s := "-" + t;
    assert "-" + NatText(n) + rest == s;
    assert s[1..] == t;
    NatRoundTrip(n, rest);
    ParseValueMinus(s, n, rest);
  }

  lemma NonNegativeRoundTrip(n: nat, rest: string)
    requires Delimited(rest)
    ensures ParseValue(NatText(n) + rest) == Some((Int(n), rest))
  {
    var s := NatText(n) + rest;
    assert IsDigit(s[0]);
    NatRoundTrip(n, rest);
  }

  lemma IntRoundTrip(i: int, rest: string)
    requires Delimited(rest)
    ensures ParseValue(IntText(i) + rest) == Some((Int(i), rest))
  {
    if i < 0 {
      NegativeRoundTrip(-i, rest);
    } else {
      NonNegativeRoundTrip(i, rest);
    }
  }

  // ----- one parsing step at a time -----

  lemma ParseString(s: string, body: string, t: string)
    requires s != [] && s[0] == '"' && ParseChars(s[1..]) == Some((body, t))
    ensures ParseValue(s) == Some((Str(body), t))
  {
  }

  lemma ParseEmptyArray(s: string)
    requires |s| >= 2 && s[0] == '[' && s[1] == ']'
    ensures ParseValue(s) == Some((Array([]), s[2..]))
  {
  }

  lemma ParseArray(s: string, items: seq<Json>, t: string)
    requires |s| >= 2 && s[0] == '[' && s[1] != ']' && ParseItems(s[1..]) == Some((items, t))
    ensures ParseValue(s) == Some((Array(items), t))
  {
  }

  lemma ParseEmptyObject(s: string)
    requires |s| >= 2 && s[0] == '{' && s[1] == '}'
    ensures ParseValue(s) == Some((Object([]), s[2..]))
  {
  }

  lemma ParseObject(s: string, es: seq<Entry<Json>>, t: string)
    requires |s| >= 2 && s[0] == '{' && s[1] != '}' && ParseEntries(s[1..]) == Some((es, t))
    ensures ParseValue(s) == Some((Object(es), t))
  {
  }

  lemma ParseItemsLast(s: string, v: Json, t: string)
    requires ParseValue(s) == Some((v, t)) && t != [] && t[0] == ']'
    ensures ParseItems(s) == Some(([v], t[1..]))
  {
  }

  lemma ParseItemsMore(s: string, v: Json, t: string, vs: seq<Json>, u: string)
    requires ParseValue(s) == Some((v, t)) && |t| >= 2 && t[0] == ',' && t[1] == ' '
    requires ParseItems(t[2..]) == Some((vs, u))
    ensures ParseItems(s) == Some(([v] + vs, u))
  {
  }

  lemma ParseEntriesLast(s: string, k: string, t: string, v: Json, u: string)
    requires s != [] && s[0] == '"' && ParseChars(s[1..]) == Some((k, t))
    requires |t| >= 2 && t[0] == ':' && t[1] == ' ' && ParseValue(t[2..]) == Some((v, u))
    requires u != [] && u[0] == '}'
    ensures ParseEntries(s) == Some(([Entry(k, v)], u[1..]))
  {
  }

  lemma ParseEntriesMore(s: string, k: string, t: string, v: Json, u: string, es: seq<Entry<Json>>, w: string)
    requires s != [] && s[0] == '"' && ParseChars(s[1..]) == Some((k, t))
    requires |t| >= 2 && t[0] == ':' && t[1] == ' ' && ParseValue(t[2..]) == Some((v, u))
    requires |u| >= 2 && u[0] == ',' && u[1] == ' ' && ParseEntries(u[2..]) == Some((es, w))
    ensures ParseEntries(s) == Some(([Entry(k, v)] + es, w))
  {
  }

  // ----- reading back each kind of value -----

  lemma StrRoundTrip(str: string, rest: string)
    ensures ParseValue(Quote(str) + rest) == Some((Str(str), rest))
  {
    var s := Quote(str) + rest;
    assert s == "\"" + (EscapeString(str) + "\"" + rest);
    assert s[1..] == EscapeString(str) + "\"" + rest;
    StringRoundTrip(str, rest);
    ParseString(s, str, rest);
  }

  /** Reading the text of a value yields the value and leaves what follows. */
  lemma {:induction false} RoundTrip(j: Json, rest: string)
    requires Delimited(rest)
    ensures ParseValue(Emit(j) + rest) == Some((j, rest))
    decreases j, 0
  {
    match j
    case Null =>
      NullRoundTrip(rest);
    case Bool(b) =>
      if b {
        TrueRoundTrip(rest);
      } else {
        FalseRoundTrip(rest);
      }
    case Int(i) =>
      IntRoundTrip(i, rest);
    case Str(str) =>
      StrRoundTrip(str, rest);
    case Array(items) =>
      ArrayRoundTrip(items, rest);
    case Object(es) =>
      ObjectRoundTrip(es, rest);
  }

  lemma {:induction false} ArrayRoundTrip(items: seq<Json>, rest: string)
    requires Delimited(rest)
    ensures ParseValue(Emit(Array(items)) + rest) == Some((Array(items), rest))
    decreases items, 1
  {
    var s := Emit(Array(items)) + rest;
    if items == [] {
      assert EmitItems(items) == "";
      assert s == "[]" + rest;
      assert s[2..] == rest;
      ParseEmptyArray(s);
    } else {
      assert s == "[" + (EmitItems(items) + "]" + rest);
      assert s[1..] == EmitItems(items) + "]" + rest;
      EmitItemsStart(items);
      ItemsRoundTrip(items, rest);
      ParseArray(s, items, rest);
    }
  }

  lemma {:induction false} ObjectRoundTrip(es: seq<Entry<Json>>, rest: string)
    requires Delimited(rest)
    ensures ParseValue(Emit(Object(es)) + rest) == Some((Object(es), rest))
    decreases es, 1
  {
    var s := Emit(Object(es)) + rest;
    if es == [] {
      assert EmitEntries(es) == "";
      assert s == "{}" + rest;
      assert s[2..] == rest;
      ParseEmptyObject(s);
    } else {
      assert s == "{" + (EmitEntries(es) + "}" + rest);
      assert s[1..] == EmitEntries(es) + "}" + rest;
      EmitEntriesStart(es);
      EntriesRoundTrip(es, rest);
      ParseObject(s, es, rest);
    }
  }

  lemma EmitItemsStart(items: seq<Json>)
    requires items != []
    ensures EmitItems(items) != [] && EmitItems(items)[0] != ']'
  {
    EmitStart(items[0]);
  }

  lemma EmitEntriesStart(es: seq<Entry<Json>>)
    requires es != []
    ensures EmitEntries(es) != [] && EmitEntries(es)[0] == '"'
  {
  }

  /** The text after a value inside a list or dict, when more follow. */
  lemma CommaText(x: string)
    ensures var m := ", " + x; |m| >= 2 && m[0] == ',' && m[1] == ' ' && m[2..] == x
  {
  }

  lemma ColonText(x: string)
    ensures var m := ": " + x; |m| >= 2 && m[0] == ':' && m[1] == ' ' && m[2..] == x
  {
  }

  lemma HeadTail<T>(s: seq<T>)
    requires s != []
    ensures [s[0]] + s[1..] == s
  {
  }

  lemma Regroup(a: string, b: string, c: string, d: string, e: string)
    ensures a + b + c + d + e == a + (b + (c + d + e))
  {
  }

  lemma ItemsTextLast(items: seq<Json>, rest: string)
    requires |items| == 1
    ensures EmitItems(items) + "]" + rest == Emit(items[0]) + ("]" + rest)
  {
  }

  lemma ItemsTextMore(items: seq<Json>, rest: string)
    requires |items| >= 2
    ensures EmitItems(items) + "]" + rest == Emit(items[0]) + (", " + (EmitItems(items[1..]) + "]" + rest))
  {
    var head, tail := Emit(items[0]), EmitItems(items[1..]);
    assert EmitItems(items) == head + ", " + tail;
    Regroup(head, ", ", tail, "]", rest);
  }

  lemma {:induction false} ItemsRoundTrip(items: seq<Json>, rest: string)
    requires items != []
    ensures ParseItems(EmitItems(items) + "]" + rest) == Some((items, rest))
    decreases items, 0
  {
    var s := EmitItems(items) + "]" + rest;
    if |items| == 1 {
      var after := "]" + rest;
      ItemsTextLast(items, rest);
      RoundTrip(items[0], after);
      assert after[0] == ']' && after[1..] == rest;
      ParseItemsLast(s, items[0], after);
      assert [items[0]] == items;
    } else {
      var tailText := EmitItems(items[1..]) + "]" + rest;
      var more := ", " + tailText;
      ItemsTextMore(items, rest);
      CommaText(tailText);
      RoundTrip(items[0], more);
      ItemsRoundTrip(items[1..], rest);
      ParseItemsMore(s, items[0], more, items[1..], rest);
      HeadTail(items);
    }
  }

  /** The key of an entry's text reads back, leaving the separator, the
      value and what follows. */
  lemma EntryKeyRoundTrip(e: Entry<Json>, after: string)
    ensures var s := EmitEntry(e) + after;
      s != [] && s[0] == '"' && ParseChars(s[1..]) == Some((e.key, ": " + (Emit(e.value) + after)))
  {
    var afterKey := ": " + (Emit(e.value) + after);
    var s := EmitEntry(e) + after;
    assert s == "\"" + (EscapeString(e.key) + "\"" + afterKey);
    assert s[1..] == EscapeString(e.key) + "\"" + afterKey;
    StringRoundTrip(e.key, afterKey);
  }

  lemma EntriesTextLast(es: seq<Entry<Json>>, rest: string)
    requires |es| == 1
    ensures EmitEntries(es) + "}" + rest == EmitEntry(es[0]) + ("}" + rest)
  {
  }

  lemma EntriesTextMore(es: seq<Entry<Json>>, rest: string)
    requires |es| >= 2
    ensures EmitEntries(es) + "}" + rest == EmitEntry(es[0]) + (", " + (EmitEntries(es[1..]) + "}" + rest))
  {
    var head, tail := EmitEntry(es[0]), EmitEntries(es[1..]);
    assert EmitEntries(es) == head + ", " + tail;
    Regroup(head, ", ", tail, "}", rest);
  }

  /** The last entry of a dict reads back, given that its value does. */
  lemma EntryLast(e: Entry<Json>, rest: string)
    requires ParseValue(Emit(e.value) + ("}" + rest)) == Some((e.value, "}" + rest))
    ensures ParseEntries(EmitEntry(e) + ("}" + rest)) == Some(([e], rest))
  {
    var after := "}" + rest;
    var s := EmitEntry(e) + after;
    EntryKeyRoundTrip(e, after);
    ColonText(Emit(e.value) + after);
    assert after[0] == '}' && after[1..] == rest;
    ParseEntriesLast(s, e.key, ": " + (Emit(e.value) + after), e.value, after);
  }

  /** An entry followed by more reads back, given that its value and the
      entries after it do. */
  lemma EntryMore(e: Entry<Json>, tailText: string, es: seq<Entry<Json>>, rest: string)
    requires ParseValue(Emit(e.value) + (", " + tailText)) == Some((e.value, ", " + tailText))
    requires ParseEntries(tailText) == Some((es, rest))
    ensures ParseEntries(EmitEntry(e) + (", " + tailText)) == Some(([e] + es, rest))
  {
    var after := ", " + tailText;
    var s := EmitEntry(e) + after;
    EntryKeyRoundTrip(e, after);
    ColonText(Emit(e.value) + after);
    CommaText(tailText);
    ParseEntriesMore(s, e.key, ": " + (Emit(e.value) + after), e.value, after, es, rest);
  }

  lemma {:induction false} EntriesRoundTrip(es: seq<Entry<Json>>, rest: string)
    requires es != []
    ensures ParseEntries(EmitEntries(es) + "}" + rest) == Some((es, rest))
    decreases es, 0
  {
    if |es| == 1 {
      EntriesTextLast(es, rest);
      RoundTrip(es[0].value, "}" + rest);
      EntryLast(es[0], rest);
      assert [es[0]] == es;
    } else {
      var tailText := EmitEntries(es[1..]) + "}" + rest;
      EntriesTextMore(es, rest);
      RoundTrip(es[0].value, ", " + tailText);
      EntriesRoundTrip(es[1..], rest);
      EntryMore(es[0], tailText, es[1..], rest);
      HeadTail(es);
    }
  }

  // ----- what the text of a value determines -----

  /** Distinct values have distinct texts. */
  lemma EmitInjective(a: Json, b: Json)
    requires Emit(a) == Emit(b)
    ensures a == b
  {
    RoundTrip(a, "");
    RoundTrip(b, "");
    assert Emit(a) + "" == Emit(a) && Emit(b) + "" == Emit(b);
  }

  /** Two values dump to the same text exactly when they agree up to the
      order of keys inside their dicts. */
  lemma DumpsIdentifiesCanon(a: Json, b: Json)
    ensures Dumps(a) == Dumps(b) <==> Canon(a) == Canon(b)
  {
    if Dumps(a) == Dumps(b) {
      EmitInjective(Canon(a), Canon(b));
    }
  }

  lemma {:induction false} CanonEntriesMapsValues(es: seq<Entry<Json>>)
    ensures CanonEntries(es) == MapValues(es, Canon)
  {
    if es != [] {
      CanonEntriesMapsValues(es[1..]);
    }
  }

  /** Every dict in the dumped value has its keys in ascending order. */
  lemma CanonObjectSorted(es: seq<Entry<Json>>)
    ensures Canon(Object(es)).entries == SortByKey(CanonEntries(es))
    ensures SortedByKey(Canon(Object(es)).entries)
    ensures multiset(Canon(Object(es)).entries) == multiset(CanonEntries(es))
  {
    SortSorts(CanonEntries(es));
    SortPermutes(CanonEntries(es));
  }

  /** The text of a dict does not depend on the order its keys were inserted. */
  lemma DumpsIgnoresKeyOrder(a: seq<Entry<Json>>, b: seq<Entry<Json>>)
    requires DistinctKeys(a) && multiset(a) == multiset(b)
    ensures Dumps(Object(a)) == Dumps(Object(b))
  {
    CanonEntriesMapsValues(a);
    CanonEntriesMapsValues(b);
    SortMapsValues(a, Canon);
    SortMapsValues(b, Canon);
    SortIgnoresInsertionOrder(a, b);
  }

  lemma {:induction false} CanonItemsPointwise(items: seq<Json>)
    ensures forall i :: 0 <= i < |items| ==> CanonItems(items)[i] == Canon(items[i])
  {
    if items != [] {
      CanonItemsPointwise(items[1..]);
      assert forall i :: 1 <= i < |items| ==> items[1..][i - 1] == items[i];
    }
  }

  /** Sorting reaches into lists: two lists are written alike exactly when
      their items are written alike, one by one. */
  lemma CanonArrayCongruent(xs: seq<Json>, ys: seq<Json>)
    ensures Canon(Array(xs)) == Canon(Array(ys)) <==>
            |xs| == |ys| && forall i :: 0 <= i < |xs| ==> Canon(xs[i]) == Canon(ys[i])
  {
    CanonItemsPointwise(xs);
    CanonItemsPointwise(ys);
  }

  /** Sorting reaches into dicts at every depth: a dict `b` whose entries are
      those of a reordering `c` of the distinct-key dict `a`, each value
      replaced by one that is written alike, is written like `a`. */
  lemma CanonObjectCongruent(a: seq<Entry<Json>>, c: seq<Entry<Json>>, b: seq<Entry<Json>>)
    requires DistinctKeys(a) && multiset(a) == multiset(c)
    requires |c| == |b| && forall i :: 0 <= i < |b| ==> c[i].key == b[i].key && Canon(c[i].value) == Canon(b[i].value)
    ensures Canon(Object(a)) == Canon(Object(b))
  {
    CanonEntriesMapsValues(a);
    CanonEntriesMapsValues(c);
    CanonEntriesMapsValues(b);
    assert MapValues(c, Canon) == MapValues(b, Canon);
    SortMapsValues(a, Canon);
    SortMapsValues(c, Canon);
    SortIgnoresInsertionOrder(a, c);
  }
}
