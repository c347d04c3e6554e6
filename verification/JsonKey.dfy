/**
 JavaScript strings are sequences of UTF-16 code units, and the adapter keys its maps by
 JSON.stringify of a short array of strings and nulls.  This module writes that text out,
 escapes included, and proves that different arrays never share a text.
 */
module JsonKey {
  import opened Wrappers

  type CodeUnit = n: int | 0 <= n < 0x1_0000

  type JsString = seq<CodeUnit>

  const QUOTE: CodeUnit := 0x22
  const BACKSLASH: CodeUnit := 0x5c
  const COLON: CodeUnit := 0x3a
  const COMMA: CodeUnit := 0x2c

  predicate HighSurrogate(c: CodeUnit) { 0xd800 <= c < 0xdc00 }

  predicate LowSurrogate(c: CodeUnit) { 0xdc00 <= c < 0xe000 }

  function HexDigit(d: int): CodeUnit
    requires 0 <= d < 16
  {
    if d < 10 then 0x30 + d else 0x57 + d
  }

  /** The six-unit escape used for control characters and lone surrogates. */
  function UnicodeEscape(c: CodeUnit): JsString {
    [BACKSLASH, 0x75, HexDigit(c / 0x1000), HexDigit(c / 0x100 % 0x10), HexDigit(c / 0x10 % 0x10), HexDigit(c % 0x10)]
  }

  /** One code unit that is not half of a surrogate pair. */
  function EscapeUnit(c: CodeUnit): JsString {
    if c == QUOTE || c == BACKSLASH then [BACKSLASH, c]
    else if c == 0x08 then [BACKSLASH, 0x62]
    else if c == 0x09 then [BACKSLASH, 0x74]
    else if c == 0x0a then [BACKSLASH, 0x6e]
    else if c == 0x0c then [BACKSLASH, 0x66]
    else if c == 0x0d then [BACKSLASH, 0x72]
    else if c < 0x20 || HighSurrogate(c) || LowSurrogate(c) then UnicodeEscape(c)
    else [c]
  }

  predicate StartsWithPair(s: JsString) {
    |s| >= 2 && HighSurrogate(s[0]) && LowSurrogate(s[1])
  }

  function Escape(s: JsString): JsString {
    if s == [] then []
    else if StartsWithPair(s) then s[..2] + Escape(s[2..])
    else EscapeUnit(s[0]) + Escape(s[1..])
  }

  /** A JSON string, or null for an absent element. */
  function Item(item: Option<JsString>): JsString {
    match item
    case None => [0x6e, 0x75, 0x6c, 0x6c]
    case Some(s) => [QUOTE] + Escape(s) + [QUOTE]
  }

  /** What follows an element of the array: the closing bracket, or a comma and the rest. */
  function Rest(items: seq<Option<JsString>>): JsString {
    if items == [] then [0x5d] else [COMMA] + Item(items[0]) + Rest(items[1..])
  }

  /** JSON.stringify of an array of strings and nulls. */
  function Stringify(items: seq<Option<JsString>>): JsString {
    [0x5b] + if items == [] then [0x5d] else Item(items[0]) + Rest(items[1..])
  }

  /** The value of a lower-case hexadecimal digit. */
  function HexValue(c: CodeUnit): (d: int)
    ensures 0 <= d < 16
  {
    if 0x30 <= c < 0x3a then c - 0x30 else if 0x61 <= c < 0x67 then c - 0x57 else 0
  }

  /** The unit a two-unit escape stands for. */
  function SimpleEscape(c: CodeUnit): CodeUnit {
    if c == 0x62 then 0x08
    else if c == 0x74 then 0x09
    else if c == 0x6e then 0x0a
    else if c == 0x66 then 0x0c
    else if c == 0x72 then 0x0d
    else c
  }

  function Prepend(c: CodeUnit, parsed: Option<(JsString, JsString)>): Option<(JsString, JsString)> {
    match parsed
    case None => None
    case Some((s, rest)) => Some(([c] + s, rest))
  }

  /** Reads a JSON string whose opening quote was consumed: its value, and the text after it. */
  function ParseString(text: JsString): Option<(JsString, JsString)> {
    if text == [] then None
    else if text[0] == QUOTE then Some(([], text[1..]))
    else if text[0] != BACKSLASH then Prepend(text[0], ParseString(text[1..]))
    else if |text| < 2 then None
    else if text[1] != 0x75 then Prepend(SimpleEscape(text[1]), ParseString(text[2..]))
    else if |text| < 6 then None
    else
      var c := HexValue(text[2]) * 0x1000 + HexValue(text[3]) * 0x100 + HexValue(text[4]) * 0x10 + HexValue(text[5]);
      Prepend(c, ParseString(text[6..]))
  }

  lemma HexDigits(c: CodeUnit)
    ensures var e := UnicodeEscape(c);
            HexValue(e[2]) * 0x1000 + HexValue(e[3]) * 0x100 + HexValue(e[4]) * 0x10 + HexValue(e[5]) == c
  {
    assert c / 0x10 == c / 0x100 * 0x10 + c / 0x10 % 0x10;
    assert c / 0x100 == c / 0x1000 * 0x10 + c / 0x100 % 0x10;
  }

  /** Every escaped unit is read back as the unit it came from. */
  lemma ParseEscapedUnit(c: CodeUnit, rest: JsString)
    ensures ParseString(EscapeUnit(c) + rest) == Prepend(c, ParseString(rest))
  {
    var e := EscapeUnit(c);
    var text := e + rest;
    assert text[|e|..] == rest;
    if |e| == 6 {
      assert e == UnicodeEscape(c);
      assert text[2] == e[2] && text[3] == e[3] && text[4] == e[4] && text[5] == e[5];
      HexDigits(c);
    }
  }

  /** A unit copied as it stands is read back as itself. */
  lemma ParsePlainUnit(c: CodeUnit, rest: JsString)
    requires c != QUOTE && c != BACKSLASH
    ensures ParseString([c] + rest) == Prepend(c, ParseString(rest))
  {
    assert ([c] + rest)[1..] == rest;
  }

  /** A surrogate pair is copied as it stands and read back as itself. */
  lemma ParsePair(s: JsString, tail: JsString, rest: JsString)
    requires StartsWithPair(s)
    requires ParseString(tail) == Some((s[2..], rest))
    ensures ParseString(s[..2] + tail) == Some((s, rest))
  {
    hide ParseString;
    assert s[..2] + tail == [s[0]] + ([s[1]] + tail);
    ParsePlainUnit(s[1], tail);
    ParsePlainUnit(s[0], [s[1]] + tail);
    assert [s[0]] + ([s[1]] + s[2..]) == s;
  }

  lemma ParseClosingQuote(rest: JsString)
    ensures ParseString([QUOTE] + rest) == Some(([], rest))
  {
    assert ([QUOTE] + rest)[1..] == rest;
  }

  /** A quoted string is read back exactly, and reading stops at its own closing quote. */
  lemma {:induction false} ParseEscaped(s: JsString, rest: JsString)
    ensures ParseString(Escape(s) + [QUOTE] + rest) == Some((s, rest))
  {
    hide ParseString;
    if s == [] {
      assert Escape(s) + [QUOTE] + rest == [QUOTE] + rest;
      ParseClosingQuote(rest);
    } else if StartsWithPair(s) {
      var tail := Escape(s[2..]) + [QUOTE] + rest;
      ParseEscaped(s[2..], rest);
      ParsePair(s, tail, rest);
      assert Escape(s) + [QUOTE] + rest == s[..2] + tail;
    } else {
      var tail := Escape(s[1..]) + [QUOTE] + rest;
      ParseEscaped(s[1..], rest);
      ParseEscapedUnit(s[0], tail);
      assert Escape(s) + [QUOTE] + rest == EscapeUnit(s[0]) + tail;
      assert [s[0]] + s[1..] == s;
    }
  }

  /** Reads one element of an array of strings and nulls. */
  function ParseItem(text: JsString): Option<(Option<JsString>, JsString)> {
    if |text| >= 4 && text[..4] == Item(None) then Some((None, text[4..]))
    else if |text| >= 1 && text[0] == QUOTE then
      match ParseString(text[1..])
      case None => None
      case Some((s, rest)) => Some((Some(s), rest))
    else None
  }

  lemma ParseItemOfItem(item: Option<JsString>, rest: JsString)
    ensures ParseItem(Item(item) + rest) == Some((item, rest))
  {
    hide ParseString, Escape;
    var text := Item(item) + rest;
    match item
    case None =>
      assert text[..4] == Item(None) && text[4..] == rest;
    case Some(s) =>
      assert text[0] == QUOTE;
      assert text[1..] == Escape(s) + [QUOTE] + rest;
      ParseEscaped(s, rest);
  }

  /** Reads what follows an element, up to and including the closing bracket. */
  function ParseRest(text: JsString): Option<seq<Option<JsString>>>
    decreases |text|
  {
    if text == [0x5d] then Some([])
    else if text == [] || text[0] != COMMA then None
    else
      match ParseItem(text[1..])
      case None => None
      case Some((item, rest)) =>
        if |rest| >= |text| then None
        else match ParseRest(rest)
          case None => None
          case Some(items) => Some([item] + items)
  }

  lemma {:induction false} ParseRestOfRest(items: seq<Option<JsString>>)
    ensures ParseRest(Rest(items)) == Some(items)
  {
    hide ParseItem, Item;
    if items != [] {
      var text := Rest(items);
      assert text == [COMMA] + (Item(items[0]) + Rest(items[1..]));
      assert text[1..] == Item(items[0]) + Rest(items[1..]);
      ParseItemOfItem(items[0], Rest(items[1..]));
      ParseRestOfRest(items[1..]);
      assert [items[0]] + items[1..] == items;
    }
  }

  /** JSON.parse of an array of strings and nulls. */
  function Parse(text: JsString): Option<seq<Option<JsString>>> {
    if text == [0x5b, 0x5d] then Some([])
    else if text == [] || text[0] != 0x5b then None
    else
      match ParseItem(text[1..])
      case None => None
      case Some((item, rest)) =>
        match ParseRest(rest)
        case None => None
        case Some(items) => Some([item] + items)
  }

  /** What JSON.stringify writes, JSON.parse reads back. */
  lemma ParseOfStringify(items: seq<Option<JsString>>)
    ensures Parse(Stringify(items)) == Some(items)
  {
    hide ParseString, Escape, ParseRest, Rest;
    if items != [] {
      var text := Stringify(items);
      assert text[1..] == Item(items[0]) + Rest(items[1..]);
      ParseItemOfItem(items[0], Rest(items[1..]));
      ParseRestOfRest(items[1..]);
      assert [items[0]] + items[1..] == items;
      assert text[1] == Item(items[0])[0];
    }
  }

  /** JSON.stringify never gives two different arrays of strings and nulls the same text. */
  lemma StringifyInjective(a: seq<Option<JsString>>, b: seq<Option<JsString>>)
    ensures Stringify(a) == Stringify(b) <==> a == b
  {
    ParseOfStringify(a);
    ParseOfStringify(b);
  }
}
