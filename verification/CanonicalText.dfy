/** The trees canonical text stands for, and the parser that recovers them. */
module CanonicalText {
  import opened Prelude
  import opened CodeUnits
  import opened CanonicalJson
  import Money

  /** JSON proper: no undefined members, and object members in the order they are written. */
  datatype Tree =
    | NullTree | BoolTree(b: bool) | NumberTree(n: int) | StringTree(s: Text)
    | ArrayTree(items: seq<Tree>) | ObjectTree(members: seq<(Text, Tree)>)

  // ----- printing -----

  function Print(t: Tree): (r: Text) {
    match t
    case NullTree => Ascii("null")
    case BoolTree(b) => Ascii(if b then "true" else "false")
    case NumberTree(n) => Numeral(n)
    case StringTree(s) => Quoted(s)
    case ArrayTree(items) => [OPEN_ARRAY] + PrintItems(items) + [CLOSE_ARRAY]
    case ObjectTree(members) => [OPEN_OBJECT] + PrintMembers(members) + [CLOSE_OBJECT]
  }

  function PrintItems(items: seq<Tree>): Text {
    if items == [] then []
    else if |items| == 1 then Print(items[0])
    else Print(items[0]) + [COMMA] + PrintItems(items[1..])
  }

  function PrintMember(m: (Text, Tree)): Text {
    Quoted(m.0) + [COLON] + Print(m.1)
  }

  function PrintMembers(members: seq<(Text, Tree)>): Text {
    if members == [] then []
    else if |members| == 1 then PrintMember(members[0])
    else PrintMember(members[0]) + [COMMA] + PrintMembers(members[1..])
  }

  // ----- parsing -----

  function HexValue(c: CodeUnit): Option<nat> {
    if 0x30 <= c <= 0x39 then Some(c - 0x30)
    else if 0x61 <= c <= 0x66 then Some(c - 0x57)
    else None
  }

  function Unescaped(c: CodeUnit): Option<CodeUnit> {
    if c == QUOTE || c == BACKSLASH then Some(c)
    else if c == 0x62 then Some(8)
    else if c == 0x74 then Some(9)
    else if c == 0x6e then Some(10)
    else if c == 0x66 then Some(12)
    else if c == 0x72 then Some(13)
    else None
  }

  /** Four hexadecimal digits at `t[2..6]`, after a backslash and a `u`. */
  function HexUnit(t: Text): Option<CodeUnit> {
    if |t| < 6 then None
    else
      match (HexValue(t[2]), HexValue(t[3]), HexValue(t[4]), HexValue(t[5]))
      case (Some(a), Some(b), Some(c), Some(d)) =>
        var unit := a * 0x1000 + b * 0x100 + c * 16 + d;
        if unit < 0x10000 then Some(unit) else None
      case _ => None
  }

  /** One unit of a string body: the unit, and how much text it took. */
  function ParseUnit(t: Text): (r: Option<(CodeUnit, nat)>)
    ensures r.Some? ==> 0 < r.value.1 <= |t|
  {
    if t == [] || t[0] == QUOTE then None
    else if t[0] != BACKSLASH then Some((t[0], 1))
    else if |t| < 2 then None
    else if t[1] == 0x75 then
      match HexUnit(t)
      case None => None
      case Some(c) => Some((c, 6))
    else
      match Unescaped(t[1])
      case None => None
      case Some(c) => Some((c, 2))
  }

  /** The rest of a string, from after its opening quote. */
  function ParseString(t: Text): (r: Option<(Text, Text)>)
    ensures r.Some? ==> |r.value.1| < |t|
    decreases |t|
  {
    if t != [] && t[0] == QUOTE then Some(([], t[1..]))
    else
      match ParseUnit(t)
      case None => None
      case Some((c, n)) =>
        match ParseString(t[n..])
        case None => None
        case Some((s, rest)) => Some(([c] + s, rest))
  }

  function LeadingDigits(t: Text): (n: nat)
    ensures n <= |t| && forall i | 0 <= i < n :: IsDigit(t[i])
  {
    if t == [] || !IsDigit(t[0]) then 0 else 1 + LeadingDigits(t[1..])
  }

  function NumberOf(d: Text): nat
    requires forall i | 0 <= i < |d| :: IsDigit(d[i])
  {
    if d == [] then 0
    else
      assert IsDigit(d[|d| - 1]);
      10 * NumberOf(d[..|d| - 1]) + (d[|d| - 1] as int - 0x30)
  }

  function ParseMagnitude(t: Text): (r: Option<(nat, Text)>)
    ensures r.Some? ==> |r.value.1| < |t|
  {
    var n := LeadingDigits(t);
    if n == 0 then None else Some((NumberOf(t[..n]), t[n..]))
  }

  function ParseNumber(t: Text): (r: Option<(Tree, Text)>)
    ensures r.Some? ==> |r.value.1| < |t|
  {
    var negative := t != [] && t[0] == MINUS;
    match ParseMagnitude(if negative then t[1..] else t)
    case None => None
    case Some((magnitude, rest)) => Some((NumberTree(if negative then 0 - magnitude else magnitude), rest))
  }

  predicate Starts(t: Text, word: Text) {
    word <= t
  }

  function Parse(t: Text): (r: Option<(Tree, Text)>)
    ensures r.Some? ==> |r.value.1| < |t|
    decreases |t|, 1
  {
    if t == [] then None
    else if Starts(t, Ascii("null")) then Some((NullTree, t[4..]))
    else if Starts(t, Ascii("true")) then Some((BoolTree(true), t[4..]))
    else if Starts(t, Ascii("false")) then Some((BoolTree(false), t[5..]))
    else if t[0] == QUOTE then ParseQuoted(t[1..])
    else if t[0] == OPEN_ARRAY then ParseArray(t[1..])
    else if t[0] == OPEN_OBJECT then ParseObject(t[1..])
    else ParseNumber(t)
  }

  function ParseQuoted(t: Text): (r: Option<(Tree, Text)>)
    ensures r.Some? ==> |r.value.1| < |t|
  {
    match ParseString(t)
    case None => None
    case Some((s, rest)) => Some((StringTree(s), rest))
  }

  function ParseArray(t: Text): (r: Option<(Tree, Text)>)
    ensures r.Some? ==> |r.value.1| < |t|
    decreases |t|, 3
  {
    if t != [] && t[0] == CLOSE_ARRAY then Some((ArrayTree([]), t[1..]))
    else
      match ParseItems(t)
      case None => None
      case Some((items, rest)) => Some((ArrayTree(items), rest))
  }

  function ParseObject(t: Text): (r: Option<(Tree, Text)>)
    ensures r.Some? ==> |r.value.1| < |t|
    decreases |t|, 4
  {
    if t != [] && t[0] == CLOSE_OBJECT then Some((ObjectTree([]), t[1..]))
    else
      match ParseMembers(t)
      case None => None
      case Some((members, rest)) => Some((ObjectTree(members), rest))
  }

  /** One item or more, and the bracket that closes them. */
  function ParseItems(t: Text): (r: Option<(seq<Tree>, Text)>)
    ensures r.Some? ==> |r.value.1| < |t|
    decreases |t|, 2
  {
    match Parse(t)
    case None => None
    case Some((item, rest)) =>
      if rest == [] then None
      else if rest[0] == CLOSE_ARRAY then Some(([item], rest[1..]))
      else if rest[0] != COMMA then None
      else
        match ParseItems(rest[1..])
        case None => None
        case Some((items, after)) => Some(([item] + items, after))
  }

  function ParseMember(t: Text): (r: Option<((Text, Tree), Text)>)
    ensures r.Some? ==> |r.value.1| < |t|
    decreases |t|, 2
  {
    if t == [] || t[0] != QUOTE then None
    else
      match ParseString(t[1..])
      case None => None
      case Some((key, rest)) =>
        if rest == [] || rest[0] != COLON then None
        else
          match Parse(rest[1..])
          case None => None
          case Some((value, after)) => Some(((key, value), after))
  }

  function ParseMembers(t: Text): (r: Option<(seq<(Text, Tree)>, Text)>)
    ensures r.Some? ==> |r.value.1| < |t|
    decreases |t|, 3
  {
    match ParseMember(t)
    case None => None
    case Some((member, rest)) =>
      if rest == [] then None
      else if rest[0] == CLOSE_OBJECT then Some(([member], rest[1..]))
      else if rest[0] != COMMA then None
      else
        match ParseMembers(rest[1..])
        case None => None
        case Some((members, after)) => Some(([member] + members, after))
  }

  // ----- the parser inverts the printer -----

  lemma {:induction false} HexDigitValue(d: nat)
    requires d < 16
    ensures HexValue(HexDigit(d)) == Some(d)
  {}

  lemma {:induction false} EscapeUnitParses(c: CodeUnit, rest: Text)
    requires !(IsHigh(c) || IsLow(c)) || EscapeUnit(c) != [c]
    ensures ParseUnit(EscapeUnit(c) + rest) == Some((c, |EscapeUnit(c)|))
    ensures EscapeUnit(c) != [] && EscapeUnit(c)[0] != QUOTE
  {
    var t := EscapeUnit(c) + rest;
    if |EscapeUnit(c)| == 6 {
      HexDigitValue(c / 16 / 16 / 16);
      HexDigitValue(c / 16 / 16 % 16);
      HexDigitValue(c / 16 % 16);
      HexDigitValue(c % 16);
      assert t[2] == EscapeUnit(c)[2] && t[3] == EscapeUnit(c)[3];
      assert t[4] == EscapeUnit(c)[4] && t[5] == EscapeUnit(c)[5];
      HexSplit(c);
      assert HexUnit(t) == Some(c);
    } else {
      assert t[0] == EscapeUnit(c)[0];
    }
  }

  lemma {:induction false} HexSplit(c: CodeUnit)
    ensures c / 16 / 16 / 16 * 0x1000 + c / 16 / 16 % 16 * 0x100 + c / 16 % 16 * 16 + c % 16 == c
  {
    var a := c / 16;
    var b := a / 16;
    assert c == 16 * a + c % 16 && a == 16 * b + a % 16 && b == 16 * (b / 16) + b % 16;
  }

  lemma {:induction false} LiteralParses(c: CodeUnit, rest: Text)
    requires c != QUOTE && c != BACKSLASH
    ensures ParseUnit([c] + rest) == Some((c, 1))
  {}

  lemma {:induction false} UnitThenRest(c: CodeUnit, written: Text, rest: Text)
    requires written != [] && written[0] != QUOTE
    requires ParseUnit(written + rest) == Some((c, |written|))
    ensures ParseString(written + rest) ==
      match ParseString(rest) case None => None case Some((s, after)) => Some(([c] + s, after))
  {
    assert (written + rest)[0] == written[0];
    assert (written + rest)[|written|..] == rest;
  }

  lemma {:induction false} PairParses(s: Text, body: Text, tail: Text, rest: Text)
    requires StartsPair(s) && ParseString(body + tail) == Some((s[2..], rest))
    ensures ParseString([s[0], s[1]] + body + tail) == Some((s, rest))
  {
    var after := body + tail;
    LiteralParses(s[1], after);
    LiteralParses(s[0], [s[1]] + after);
    hide ParseUnit, ParseString;
    UnitThenRest(s[1], [s[1]], after);
    UnitThenRest(s[0], [s[0]], [s[1]] + after);
    assert [s[0], s[1]] + body + tail == [s[0]] + ([s[1]] + after);
    assert s == [s[0]] + ([s[1]] + s[2..]);
  }

  lemma {:induction false} SingleParses(s: Text, body: Text, tail: Text, rest: Text)
    requires s != [] && ParseString(body + tail) == Some((s[1..], rest))
    ensures ParseString(EscapeUnit(s[0]) + body + tail) == Some((s, rest))
  {
    var after := body + tail;
    EscapeUnitParses(s[0], after);
    hide ParseUnit, ParseString, EscapeUnit;
    UnitThenRest(s[0], EscapeUnit(s[0]), after);
    assert EscapeUnit(s[0]) + body + tail == EscapeUnit(s[0]) + after;
    assert s == [s[0]] + s[1..];
  }

  lemma {:induction false} StringRoundTrip(s: Text, rest: Text)
    ensures ParseString(Escape(s) + ([QUOTE] + rest)) == Some((s, rest))
    decreases |s|
  {
    var tail := [QUOTE] + rest;
    if s == [] {
      assert Escape(s) + tail == tail && tail[1..] == rest;
    } else if StartsPair(s) {
      StringRoundTrip(s[2..], rest);
      hide ParseString;
      PairParses(s, Escape(s[2..]), tail, rest);
    } else {
      StringRoundTrip(s[1..], rest);
      hide ParseString, EscapeUnit;
      SingleParses(s, Escape(s[1..]), tail, rest);
    }
  }

  predicate DigitFirst(t: Text) {
    t != [] && IsDigit(t[0])
  }

  lemma {:induction false} LeadingDigitsOf(d: Text, rest: Text)
    requires (forall i | 0 <= i < |d| :: IsDigit(d[i])) && !DigitFirst(rest)
    ensures LeadingDigits(d + rest) == |d|
  {
    if d == [] {
      assert d + rest == rest;
    } else {
      assert (d + rest)[1..] == d[1..] + rest;
      LeadingDigitsOf(d[1..], rest);
    }
  }

  lemma {:induction false} DigitsDenote(n: nat)
    ensures NumberOf(Digits(n)) == n
  {
    DigitsAreAscii(Money.Numeral(n));
    AsciiDenotes(Money.Numeral(n));
  }

  lemma {:induction false} AsciiDenotes(s: string)
    requires Money.AllDigits(s) && forall i | 0 <= i < |s| :: s[i] < 128 as char && IsDigit(s[i] as int)
    ensures NumberOf(Ascii(s)) == Money.Digits(s)
  {
    if s != "" {
      var front := s[..|s| - 1];
      AsciiDenotes(front);
      assert Ascii(s)[..|s| - 1] == Ascii(front);
    }
  }

  lemma {:induction false} NumberRoundTrip(n: int, rest: Text)
    requires !DigitFirst(rest)
    ensures Parse(Numeral(n) + rest) == Some((NumberTree(n), rest))
  {
    hide Digits, Parse, ParseMagnitude;
    var m: nat := if n < 0 then -n else n;
    var t := Numeral(n) + rest;
    MagnitudeParses(m, rest);
    assert IsDigit(Digits(m)[0]);
    if n < 0 {
      assert t[0] == MINUS && t[1..] == Digits(m) + rest;
    } else {
      assert t == Digits(m) + rest && t[0] == Digits(m)[0];
    }
    Dispatch(t);
  }

  lemma {:induction false} MagnitudeParses(m: nat, rest: Text)
    requires !DigitFirst(rest)
    ensures ParseMagnitude(Digits(m) + rest) == Some((m, rest))
  {
    hide Digits, LeadingDigits, NumberOf;
    DigitsDenote(m);
    LeadingDigitsOf(Digits(m), rest);
    var body := Digits(m) + rest;
    assert body[..|Digits(m)|] == Digits(m) && body[|Digits(m)|..] == rest;
  }

  /** The first unit decides what is parsed. */
  lemma {:induction false} Dispatch(t: Text)
    requires t != []
    ensures t[0] == QUOTE ==> Parse(t) == ParseQuoted(t[1..])
    ensures t[0] == OPEN_ARRAY ==> Parse(t) == ParseArray(t[1..])
    ensures t[0] == OPEN_OBJECT ==> Parse(t) == ParseObject(t[1..])
    ensures t[0] == MINUS || IsDigit(t[0]) ==> Parse(t) == ParseNumber(t)
  {
    if t[0] == MINUS || IsDigit(t[0]) || t[0] == QUOTE || t[0] == OPEN_ARRAY || t[0] == OPEN_OBJECT {
      NotAWord(t);
    }
    hide ParseQuoted, ParseArray, ParseObject, ParseNumber, Ascii, Starts;
  }

  lemma {:induction false} NotAWord(t: Text)
    requires t != [] && (t[0] == MINUS || IsDigit(t[0]) || t[0] == QUOTE || t[0] == OPEN_ARRAY || t[0] == OPEN_OBJECT)
    ensures !Starts(t, Ascii("null")) && !Starts(t, Ascii("true")) && !Starts(t, Ascii("false"))
  {
    assert Ascii("null")[0] == 0x6e && Ascii("true")[0] == 0x74 && Ascii("false")[0] == 0x66;
  }

  /** What a printed tree can start with. */
  lemma {:induction false} PrintedStart(t: Tree)
    ensures Print(t) != [] && Print(t)[0] != CLOSE_ARRAY && Print(t)[0] != CLOSE_OBJECT
  {
    if t.NumberTree? { assert t.n >= 0 ==> IsDigit(Numeral(t.n)[0]); }
    hide Digits, Escape, PrintItems, PrintMembers;
  }

  lemma {:induction false} WordRoundTrip(rest: Text)
    ensures Parse(Ascii("null") + rest) == Some((NullTree, rest))
    ensures Parse(Ascii("true") + rest) == Some((BoolTree(true), rest))
    ensures Parse(Ascii("false") + rest) == Some((BoolTree(false), rest))
  {
    var n, t, f := Ascii("null") + rest, Ascii("true") + rest, Ascii("false") + rest;
    assert n[0] == 0x6e && t[0] == 0x74 && f[0] == 0x66;
    assert n[..4] == Ascii("null") && n[4..] == rest;
    assert t[..4] == Ascii("true") && t[4..] == rest && !Starts(t, Ascii("null"));
    assert Ascii("null")[0] == 0x6e && Ascii("true")[0] == 0x74;
    assert f[..5] == Ascii("false") && f[5..] == rest && !Starts(f, Ascii("null")) && !Starts(f, Ascii("true"));
    hide Ascii;
  }

  lemma {:induction false} QuotedParses(s: Text, rest: Text)
    ensures Parse(Quoted(s) + rest) == Some((StringTree(s), rest))
  {
    var t := Quoted(s) + rest;
    assert t[0] == QUOTE && t[1..] == Escape(s) + ([QUOTE] + rest);
    StringRoundTrip(s, rest);
    Dispatch(t);
    hide ParseString, Escape, Parse;
  }

  /** Parsing undoes printing, and reads exactly the printed part of any longer text. */
  lemma {:induction false} RoundTrip(t: Tree, rest: Text)
    requires t.NumberTree? ==> !DigitFirst(rest)
    ensures Parse(Print(t) + rest) == Some((t, rest))
    decreases t, 1
  {
    match t
    case NullTree => WordRoundTrip(rest);
    case BoolTree(b) => WordRoundTrip(rest);
    case NumberTree(n) => NumberRoundTrip(n, rest);
    case StringTree(s) => QuotedParses(s, rest);
    case ArrayTree(items) =>
      if items != [] { ItemsRoundTrip(items, rest); }
      ArrayParses(items, rest);
    case ObjectTree(members) =>
      if members != [] { MembersRoundTrip(members, rest); }
      ObjectParses(members, rest);
  }

  lemma {:induction false} ArrayParses(items: seq<Tree>, rest: Text)
    requires items != [] ==>
      ParseItems(PrintItems(items) + ([CLOSE_ARRAY] + rest)) == Some((items, rest))
    ensures Parse(Print(ArrayTree(items)) + rest) == Some((ArrayTree(items), rest))
  {
    hide Parse, ParseItems, PrintItems;
    var t := Print(ArrayTree(items)) + rest;
    var tail := PrintItems(items) + ([CLOSE_ARRAY] + rest);
    assert t[0] == OPEN_ARRAY && t[1..] == tail;
    Dispatch(t);
    if items == [] {
      assert PrintItems(items) == [] by { EmptyPrints(); }
      assert tail == [CLOSE_ARRAY] + rest && tail[1..] == rest;
    } else {
      ItemsStart(items);
      assert tail[0] == PrintItems(items)[0];
    }
    assert ParseArray(tail) == Some((ArrayTree(items), rest));
  }

  lemma {:induction false} EmptyPrints()
    ensures PrintItems([]) == [] && PrintMembers([]) == []
  {}

  lemma {:induction false} ItemsStart(items: seq<Tree>)
    requires items != []
    ensures PrintItems(items) != [] && PrintItems(items)[0] != CLOSE_ARRAY
  {
    PrintedStart(items[0]);
    hide Print;
  }

  lemma {:induction false} MembersStart(members: seq<(Text, Tree)>)
    requires members != []
    ensures PrintMembers(members) != [] && PrintMembers(members)[0] == QUOTE
  {
    assert PrintMember(members[0])[0] == QUOTE;
    hide Print, Escape;
  }

  lemma {:induction false} ObjectParses(members: seq<(Text, Tree)>, rest: Text)
    requires members != [] ==>
      ParseMembers(PrintMembers(members) + ([CLOSE_OBJECT] + rest)) == Some((members, rest))
    ensures Parse(Print(ObjectTree(members)) + rest) == Some((ObjectTree(members), rest))
  {
    hide Parse, ParseMembers, PrintMembers;
    var t := Print(ObjectTree(members)) + rest;
    var tail := PrintMembers(members) + ([CLOSE_OBJECT] + rest);
    assert t[0] == OPEN_OBJECT && t[1..] == tail;
    Dispatch(t);
    if members == [] {
      assert PrintMembers(members) == [] by { EmptyPrints(); }
      assert tail == [CLOSE_OBJECT] + rest && tail[1..] == rest;
    } else {
      MembersStart(members);
      assert tail[0] == PrintMembers(members)[0];
    }
    assert ParseObject(tail) == Some((ObjectTree(members), rest));
  }

  lemma {:induction false} ItemsRoundTrip(items: seq<Tree>, rest: Text)
    requires items != []
    ensures ParseItems(PrintItems(items) + ([CLOSE_ARRAY] + rest)) == Some((items, rest))
    decreases items, 0
  {
    hide ParseItems, Parse, Print, IsDigit;
    if |items| == 1 {
      assert !DigitFirst([CLOSE_ARRAY] + rest) by { Punctuation(); }
      RoundTrip(items[0], [CLOSE_ARRAY] + rest);
      LastItem(items[0], rest);
      assert items == [items[0]];
      assert PrintItems(items) == Print(items[0]);
    } else {
      var tail := PrintItems(items[1..]) + ([CLOSE_ARRAY] + rest);
      assert !DigitFirst([COMMA] + tail) by { Punctuation(); }
      RoundTrip(items[0], [COMMA] + tail);
      ItemsRoundTrip(items[1..], rest);
      OneMoreItem(items[0], tail, items[1..], rest);
      assert PrintItems(items) + ([CLOSE_ARRAY] + rest) == Print(items[0]) + ([COMMA] + tail) by {
        hide *;
        PrintItemsStep(items);
        assert (Print(items[0]) + [COMMA] + PrintItems(items[1..])) + ([CLOSE_ARRAY] + rest)
          == Print(items[0]) + ([COMMA] + (PrintItems(items[1..]) + ([CLOSE_ARRAY] + rest)));
      }
      assert items == [items[0]] + items[1..];
    }
  }

  lemma {:induction false} Punctuation()
    ensures !IsDigit(COMMA) && !IsDigit(CLOSE_ARRAY) && !IsDigit(CLOSE_OBJECT)
  {}

  lemma {:induction false} PrintItemsStep(items: seq<Tree>)
    requires |items| > 1
    ensures PrintItems(items) == Print(items[0]) + [COMMA] + PrintItems(items[1..])
  {}

  lemma {:induction false} LastItem(item: Tree, rest: Text)
    requires Parse(Print(item) + ([CLOSE_ARRAY] + rest)) == Some((item, [CLOSE_ARRAY] + rest))
    ensures ParseItems(Print(item) + ([CLOSE_ARRAY] + rest)) == Some(([item], rest))
  {
    hide Parse, Print;
    assert ([CLOSE_ARRAY] + rest)[1..] == rest;
  }

  lemma {:induction false} OneMoreItem(item: Tree, tail: Text, items: seq<Tree>, rest: Text)
    requires Parse(Print(item) + ([COMMA] + tail)) == Some((item, [COMMA] + tail))
    requires ParseItems(tail) == Some((items, rest))
    ensures ParseItems(Print(item) + ([COMMA] + tail)) == Some(([item] + items, rest))
  {
    hide Parse, Print;
    assert ([COMMA] + tail)[1..] == tail;
  }

  lemma {:induction false} MembersRoundTrip(members: seq<(Text, Tree)>, rest: Text)
    requires members != []
    ensures ParseMembers(PrintMembers(members) + ([CLOSE_OBJECT] + rest)) == Some((members, rest))
    decreases members, 0
  {
    hide ParseMember, PrintMember;
    var m := members[0];
    if |members| == 1 {
      MemberRoundTrip(members[0], [CLOSE_OBJECT] + rest);
      assert members == [m] && ([CLOSE_OBJECT] + rest)[1..] == rest;
    } else {
      var tail := PrintMembers(members[1..]) + ([CLOSE_OBJECT] + rest);
      MemberRoundTrip(members[0], [COMMA] + tail);
      MembersRoundTrip(members[1..], rest);
      assert PrintMembers(members) + ([CLOSE_OBJECT] + rest) == PrintMember(m) + ([COMMA] + tail);
      assert ([COMMA] + tail)[1..] == tail && members == [m] + members[1..];
    }
  }

  lemma {:induction false} MemberRoundTrip(m: (Text, Tree), rest: Text)
    requires m.1.NumberTree? ==> !DigitFirst(rest)
    ensures ParseMember(PrintMember(m) + rest) == Some((m, rest))
    decreases m, 0
  {
    RoundTrip(m.1, rest);
    MemberParses(m, rest);
  }

  lemma {:induction false} MemberParses(m: (Text, Tree), rest: Text)
    requires Parse(Print(m.1) + rest) == Some((m.1, rest))
    ensures ParseMember(PrintMember(m) + rest) == Some((m, rest))
  {
    hide Parse, Print, ParseString, Escape;
    var t := PrintMember(m) + rest;
    var value := Print(m.1) + rest;
    StringRoundTrip(m.0, [COLON] + value);
    assert t[0] == QUOTE && t[1..] == Escape(m.0) + ([QUOTE] + ([COLON] + value));
    assert ([COLON] + value)[1..] == value;
  }
}
