// The canonical JSON text that gets signed: what the serializer writes for a value, the tree
// that text stands for, and a parser that reads the tree back from any longer text.
module CanonicalJson {
  import opened Prelude
  import opened CodeUnits
  import Money

  function Ascii(s: string): (r: Text)
    requires forall i | 0 <= i < |s| :: s[i] < 128 as char
    ensures |r| == |s|
    ensures forall i | 0 <= i < |s| :: r[i] == s[i] as int
  {
    seq(|s|, i requires 0 <= i < |s| => s[i] as int)
  }

  const QUOTE: CodeUnit := 0x22
  const BACKSLASH: CodeUnit := 0x5c
  const COMMA: CodeUnit := 0x2c
  const COLON: CodeUnit := 0x3a
  const MINUS: CodeUnit := 0x2d
  const OPEN_ARRAY: CodeUnit := 0x5b
  const CLOSE_ARRAY: CodeUnit := 0x5d
  const OPEN_OBJECT: CodeUnit := 0x7b
  const CLOSE_OBJECT: CodeUnit := 0x7d

  /** A value handed to the serializer; object entries come in insertion order. */
  datatype Value =
    | Undefined | Null | Bool(b: bool) | Number(n: int) | NonFinite | BigInt(big: int)
    | Str(s: Text) | Arr(items: seq<Value>) | Obj(entries: seq<(Text, Value)>) | Unsupported

  datatype JsonError = NotFinite | NotJson

  // ----- strings -----

  predicate StartsPair(s: Text) {
    |s| >= 2 && IsHigh(s[0]) && IsLow(s[1])
  }

  function HexDigit(d: nat): CodeUnit
    requires d < 16
  {
    if d < 10 then 0x30 + d else 0x57 + d
  }

  function EscapeUnit(c: CodeUnit): Text {
    if c == QUOTE || c == BACKSLASH then [BACKSLASH, c]
    else if c == 8 then [BACKSLASH, 0x62]
    else if c == 9 then [BACKSLASH, 0x74]
    else if c == 10 then [BACKSLASH, 0x6e]
    else if c == 12 then [BACKSLASH, 0x66]
    else if c == 13 then [BACKSLASH, 0x72]
    else if c < 0x20 || IsHigh(c) || IsLow(c) then
      [BACKSLASH, 0x75, HexDigit(c / 16 / 16 / 16), HexDigit(c / 16 / 16 % 16), HexDigit(c / 16 % 16), HexDigit(c % 16)]
    else [c]
  }

  /** Four lower-case hexadecimal digits, and what they denote. */
  ghost predicate IsHex(digits: Text, value: int) {
    && |digits| == 4 && (forall i | 0 <= i < 4 :: 0x30 <= digits[i] <= 0x39 || 0x61 <= digits[i] <= 0x66)
    && value == 4096 * Nibble(digits[0]) + 256 * Nibble(digits[1]) + 16 * Nibble(digits[2]) + Nibble(digits[3])
  }

  ghost function Nibble(c: CodeUnit): int {
    if c <= 0x39 then c - 0x30 else c - 0x61 + 10
  }

  predicate NeedsDigits(c: CodeUnit) {
    (c < 0x20 && c != 8 && c != 9 && c != 10 && c != 12 && c != 13) || 0xd800 <= c < 0xe000
  }

  /**
   * What may stand in a string stands for itself. Quotes, backslashes and five control characters
   * get a backslash; any other control character or lone surrogate is written as four digits.
   */
  lemma {:induction false} EscapedAs(c: CodeUnit)
    ensures 0x20 <= c && c != 0x22 && c != 0x5c && !(0xd800 <= c < 0xe000) ==> EscapeUnit(c) == [c]
    ensures EscapeUnit(0x22) == Ascii("\\\"") && EscapeUnit(0x5c) == Ascii("\\\\")
    ensures EscapeUnit(8) == Ascii("\\b") && EscapeUnit(9) == Ascii("\\t") && EscapeUnit(10) == Ascii("\\n")
    ensures EscapeUnit(12) == Ascii("\\f") && EscapeUnit(13) == Ascii("\\r")
    ensures NeedsDigits(c) ==>
      && |EscapeUnit(c)| == 6 && EscapeUnit(c)[..2] == Ascii("\\u") && IsHex(EscapeUnit(c)[2..], c)
  {
    ShortEscapes();
    if NeedsDigits(c) { DigitEscape(c); }
    hide HexDigit, IsHex, Ascii;
  }

  lemma {:induction false} ShortEscapes()
    ensures EscapeUnit(0x22) == Ascii("\\\"") && EscapeUnit(0x5c) == Ascii("\\\\")
    ensures EscapeUnit(8) == Ascii("\\b") && EscapeUnit(9) == Ascii("\\t") && EscapeUnit(10) == Ascii("\\n")
    ensures EscapeUnit(12) == Ascii("\\f") && EscapeUnit(13) == Ascii("\\r")
  {}

  lemma {:induction false} DigitEscape(c: CodeUnit)
    requires NeedsDigits(c)
    ensures |EscapeUnit(c)| == 6 && EscapeUnit(c)[..2] == Ascii("\\u") && IsHex(EscapeUnit(c)[2..], c)
  {
    var t := EscapeUnit(c);
    var digits := [HexDigit(c / 16 / 16 / 16), HexDigit(c / 16 / 16 % 16), HexDigit(c / 16 % 16), HexDigit(c % 16)];
    assert t == [BACKSLASH, 0x75] + digits && Ascii("\\u") == [BACKSLASH, 0x75];
    assert t[2..] == digits && t[..2] == [BACKSLASH, 0x75];
    hide EscapeUnit, Ascii;
    assert c == 4096 * (c / 16 / 16 / 16) + 256 * (c / 16 / 16 % 16) + 16 * (c / 16 % 16) + c % 16;
    HexDigitIs(c / 16 / 16 / 16);
    HexDigitIs(c / 16 / 16 % 16);
    HexDigitIs(c / 16 % 16);
    HexDigitIs(c % 16);
  }

  lemma {:induction false} HexDigitIs(d: nat)
    requires d < 16
    ensures Nibble(HexDigit(d)) == d && (0x30 <= HexDigit(d) <= 0x39 || 0x61 <= HexDigit(d) <= 0x66)
  {}

  /** Surrogate pairs are written as they are; a lone surrogate is escaped. */
  function Escape(s: Text): Text {
    if s == [] then []
    else if StartsPair(s) then [s[0], s[1]] + Escape(s[2..])
    else EscapeUnit(s[0]) + Escape(s[1..])
  }

  function Quoted(s: Text): Text {
    [QUOTE] + Escape(s) + [QUOTE]
  }

  // ----- numbers -----

  function Numeral(n: int): Text {
    if n < 0 then [MINUS] + Digits(-n) else Digits(n)
  }

  function Digits(n: nat): (r: Text)
    ensures r != [] && forall i | 0 <= i < |r| :: IsDigit(r[i])
  {
    DigitsAreAscii(Money.Numeral(n));
    Ascii(Money.Numeral(n))
  }

  predicate IsDigit(c: CodeUnit) {
    0x30 <= c <= 0x39
  }

  lemma {:induction false} DigitsAreAscii(s: string)
    requires Money.AllDigits(s)
    ensures forall i | 0 <= i < |s| :: s[i] < 128 as char && IsDigit(s[i] as int)
  {
    forall i | 0 <= i < |s|
      ensures s[i] < 128 as char && IsDigit(s[i] as int)
    {
      assert Money.IsDigit(s[i]);
    }
  }

  // ----- the serializer -----

  function Join(parts: seq<Text>): Text {
    if parts == [] then [] else if |parts| == 1 then parts[0] else parts[0] + [COMMA] + Join(parts[1..])
  }

  function Canonical(v: Value): Result<Text, JsonError>
    decreases v, 1
  {
    match v
    case Null => Ok(Ascii("null"))
    case Str(s) => Ok(Quoted(s))
    case Bool(b) => Ok(Ascii(if b then "true" else "false"))
    case NonFinite => Err(NotFinite)
    case Number(n) => Ok(Numeral(n))
    case BigInt(n) => Ok(Quoted(Numeral(n)))
    case Arr(items) =>
      (match CanonicalItems(items)
       case Err(e) => Err(e)
       case Ok(parts) => Ok([OPEN_ARRAY] + Join(parts) + [CLOSE_ARRAY]))
    case Obj(entries) =>
      SortedWithin(entries);
      (match CanonicalEntries(SortEntries(Defined(entries)), v)
       case Err(e) => Err(e)
       case Ok(parts) => Ok([OPEN_OBJECT] + Join(parts) + [CLOSE_OBJECT]))
    case Undefined => Err(NotJson)
    case Unsupported => Err(NotJson)
  }

  function CanonicalItems(items: seq<Value>): Result<seq<Text>, JsonError>
    decreases items, 0
  {
    if items == [] then Ok([])
    else
      match if items[0] == Undefined then Ok(Ascii("null")) else Canonical(items[0])
      case Err(e) => Err(e)
      case Ok(part) =>
        match CanonicalItems(items[1..])
        case Err(e) => Err(e)
        case Ok(parts) => Ok([part] + parts)
  }

  function Defined(entries: seq<(Text, Value)>): seq<(Text, Value)> {
    if entries == [] then []
    else (if entries[0].1 == Undefined then [] else [entries[0]]) + Defined(entries[1..])
  }

  function CanonicalEntries(entries: seq<(Text, Value)>, within: Value): Result<seq<Text>, JsonError>
    requires forall e | e in entries :: e.1 < within
    decreases within, 0, |entries|
  {
    if entries == [] then Ok([])
    else
      assert entries[0] in entries;
      match Canonical(entries[0].1)
      case Err(e) => Err(e)
      case Ok(part) =>
        match CanonicalEntries(entries[1..], within)
        case Err(e) => Err(e)
        case Ok(parts) => Ok([Quoted(entries[0].0) + [COLON] + part] + parts)
  }

  lemma {:induction false} SortedWithin(entries: seq<(Text, Value)>)
    ensures forall e | e in SortEntries(Defined(entries)) :: e in entries
  {
    SortKeeps(Defined(entries));
    DefinedIsFilter(entries);
  }

  lemma {:induction false} DefinedIsFilter(entries: seq<(Text, Value)>)
    ensures forall e :: e in Defined(entries) <==> e in entries && e.1 != Undefined
  {
    if entries != [] {
      DefinedIsFilter(entries[1..]);
      assert entries == [entries[0]] + entries[1..];
      assert forall e :: e in entries <==> e == entries[0] || e in entries[1..];
    }
  }
}
