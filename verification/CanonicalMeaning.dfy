/** Canonical text is unambiguous, ignores key order, and survives encoding. */
module CanonicalMeaning {
  import opened Prelude
  import opened CodeUnits
  import opened CanonicalJson
  import opened CanonicalText

  /** The tree a value is written as; none when the serializer refuses it. */
  function Meaning(v: Value): Option<Tree>
    decreases v, 1
  {
    match v
    case Null => Some(NullTree)
    case Str(s) => Some(StringTree(s))
    case Bool(b) => Some(BoolTree(b))
    case Number(n) => Some(NumberTree(n))
    case BigInt(n) => Some(StringTree(Numeral(n)))
    case Arr(items) =>
      (match ItemMeanings(items) case None => None case Some(trees) => Some(ArrayTree(trees)))
    case Obj(entries) =>
      SortedWithin(entries);
      (match MemberMeanings(SortEntries(Defined(entries)), v)
       case None => None
       case Some(members) => Some(ObjectTree(members)))
    case NonFinite => None
    case Undefined => None
    case Unsupported => None
  }

  function ItemMeanings(items: seq<Value>): Option<seq<Tree>>
    decreases items, 0
  {
    if items == [] then Some([])
    else
      match (if items[0] == Undefined then Some(NullTree) else Meaning(items[0]), ItemMeanings(items[1..]))
      case (Some(t), Some(ts)) => Some([t] + ts)
      case _ => None
  }

  function MemberMeanings(entries: seq<(Text, Value)>, within: Value): Option<seq<(Text, Tree)>>
    requires forall e | e in entries :: e.1 < within
    decreases within, 0, |entries|
  {
    if entries == [] then Some([])
    else
      assert entries[0] in entries;
      match (Meaning(entries[0].1), MemberMeanings(entries[1..], within))
      case (Some(t), Some(ts)) => Some([(entries[0].0, t)] + ts)
      case _ => None
  }

  /** Nothing in the value that JSON cannot say; undefined items and members do not count. */
  ghost predicate Writable(v: Value) {
    match v
    case Arr(items) => forall x | x in items :: x == Undefined || Writable(x)
    case Obj(entries) => forall e | e in entries :: e.1 == Undefined || Writable(e.1)
    case NonFinite => false
    case Undefined => false
    case Unsupported => false
    case _ => true
  }

  /** The serializer accepts exactly the writable values. */
  lemma {:induction false} AcceptedIff(v: Value)
    ensures Canonical(v).Ok? <==> Writable(v)
    decreases v, 1
  {
    match v
    case Arr(items) => ItemsAcceptedIff(items);
    case Obj(entries) =>
      SortedWithin(entries);
      SortKeeps(Defined(entries));
      DefinedIsFilter(entries);
      EntriesAcceptedIff(SortEntries(Defined(entries)), v);
    case _ =>
  }

  lemma {:induction false} ItemsAcceptedIff(items: seq<Value>)
    ensures CanonicalItems(items).Ok? <==> forall x | x in items :: x == Undefined || Writable(x)
    decreases items, 0
  {
    if items != [] {
      if items[0] != Undefined { AcceptedIff(items[0]); }
      ItemsAcceptedIff(items[1..]);
      assert forall x :: x in items <==> x == items[0] || x in items[1..];
      hide Canonical, Writable;
    }
  }

  lemma {:induction false} EntriesAcceptedIff(entries: seq<(Text, Value)>, within: Value)
    requires forall e | e in entries :: e.1 < within
    ensures CanonicalEntries(entries, within).Ok? <==> forall e | e in entries :: Writable(e.1)
    decreases within, 0, |entries|
  {
    if entries != [] {
      assert entries[0] in entries;
      AcceptedIff(entries[0].1);
      EntriesAcceptedIff(entries[1..], within);
      assert forall e :: e in entries <==> e == entries[0] || e in entries[1..];
      hide Canonical, Writable;
    }
  }

  // ----- the serializer writes the meaning -----

  ghost predicate Writes(text: Result<Text, JsonError>, tree: Option<Tree>) {
    match tree
    case None => text.Err?
    case Some(t) => text == Ok(Print(t))
  }

  lemma {:induction false} CanonicalWrites(v: Value)
    ensures Writes(Canonical(v), Meaning(v))
    decreases v, 1
  {
    hide Ascii, Numeral, Quoted, Join, PrintItems, PrintMembers, CanonicalItems, CanonicalEntries,
      ItemMeanings, MemberMeanings, SortEntries, Defined;
    match v
    case Arr(items) => ItemsWrite(items);
    case Obj(entries) =>
      SortedWithin(entries);
      MembersWrite(SortEntries(Defined(entries)), v);
    case _ =>
  }

  lemma {:induction false} ItemsWrite(items: seq<Value>)
    ensures match ItemMeanings(items)
      case None => CanonicalItems(items).Err?
      case Some(ts) => CanonicalItems(items).Ok? && |CanonicalItems(items).value| == |ts|
                       && Join(CanonicalItems(items).value) == PrintItems(ts)
    decreases items, 0
  {
    if items != [] {
      if items[0] != Undefined { CanonicalWrites(items[0]); }
      hide Canonical, Meaning, Print, Join, PrintItems;
      ItemsWrite(items[1..]);
      PrintNull();
      var first, rest := if items[0] == Undefined then Some(NullTree) else Meaning(items[0]), ItemMeanings(items[1..]);
      if first.Some? && rest.Some? {
        OneMorePart(Print(first.value), CanonicalItems(items[1..]).value, first.value, rest.value);
      }
    }
  }

  lemma {:induction false} OneMorePart(part: Text, parts: seq<Text>, t: Tree, ts: seq<Tree>)
    requires part == Print(t) && |parts| == |ts| && Join(parts) == PrintItems(ts)
    ensures Join([part] + parts) == PrintItems([t] + ts)
  {
    hide Print;
    assert ([part] + parts)[1..] == parts && ([t] + ts)[1..] == ts;
  }

  lemma {:induction false} PrintNull()
    ensures Print(NullTree) == Ascii("null")
  {}

  lemma {:induction false} MembersWrite(entries: seq<(Text, Value)>, within: Value)
    requires forall e | e in entries :: e.1 < within
    ensures match MemberMeanings(entries, within)
      case None => CanonicalEntries(entries, within).Err?
      case Some(ts) => CanonicalEntries(entries, within).Ok? && |CanonicalEntries(entries, within).value| == |ts|
                       && Join(CanonicalEntries(entries, within).value) == PrintMembers(ts)
    decreases within, 0, |entries|
  {
    if entries != [] {
      assert entries[0] in entries;
      CanonicalWrites(entries[0].1);
      MembersWrite(entries[1..], within);
      hide Canonical, Meaning, Print, Quoted;
    }
  }

  /** Two accepted values have the same canonical text exactly when they mean the same tree. */
  lemma {:induction false} SameTextIff(v: Value, w: Value)
    requires Canonical(v).Ok? && Canonical(w).Ok?
    ensures Canonical(v) == Canonical(w) <==> Meaning(v) == Meaning(w)
  {
    CanonicalWrites(v);
    CanonicalWrites(w);
    hide Canonical, Meaning, Print, Parse;
    var t, u := Meaning(v).value, Meaning(w).value;
    RoundTrip(t, []);
    RoundTrip(u, []);
    assert Print(t) + [] == Print(t) && Print(u) + [] == Print(u);
  }

  /** One value's text never goes on to be another's, except that a number may get more digits. */
  lemma {:induction false} NoProperPrefix(v: Value, w: Value, more: Text)
    requires Canonical(v).Ok? && Canonical(w).Ok?
    requires Canonical(w).value == Canonical(v).value + more
    ensures (more == [] && Meaning(v) == Meaning(w)) || (v.Number? && DigitFirst(more))
  {
    CanonicalWrites(v);
    CanonicalWrites(w);
    OnlyNumbers(v);
    hide Canonical, Meaning, Print, Parse;
    if !(v.Number? && DigitFirst(more)) {
      RoundTrip(Meaning(v).value, more);
      RoundTrip(Meaning(w).value, []);
      assert Print(Meaning(w).value) + [] == Print(Meaning(w).value);
    }
  }

  lemma {:induction false} OnlyNumbers(v: Value)
    requires Meaning(v).Some?
    ensures Meaning(v).value.NumberTree? <==> v.Number?
  {}

  // ----- key order -----

  lemma {:induction false} DefinedDistinct(es: seq<(Text, Value)>)
    requires DistinctKeys(es)
    ensures DistinctKeys(Defined(es))
  {
    if es != [] {
      DefinedDistinct(es[1..]);
      DefinedIsFilter(es[1..]);
      forall i | 0 <= i < |Defined(es[1..])|
        ensures Defined(es[1..])[i].0 != es[0].0
      {
        var x := Defined(es[1..])[i];
        assert x in es[1..];
        var k :| 0 <= k < |es[1..]| && es[1..][k] == x;
        assert es[k + 1] == x;
      }
    }
  }

  /** The order in which an object's keys were inserted does not show. */
  lemma {:induction false} KeyOrderIgnored(a: seq<(Text, Value)>, b: seq<(Text, Value)>)
    requires DistinctKeys(a) && DistinctKeys(b) && SameEntries(a, b)
    ensures Canonical(Obj(a)).Ok? <==> Canonical(Obj(b)).Ok?
    ensures Canonical(Obj(a)).Ok? ==> Canonical(Obj(a)) == Canonical(Obj(b))
  {
    var x, y := Defined(a), Defined(b);
    DefinedDistinct(a);
    DefinedDistinct(b);
    DefinedIsFilter(a);
    DefinedIsFilter(b);
    SortAscending(x);
    SortAscending(y);
    SortKeeps(x);
    SortKeeps(y);
    AscendingUnique(SortEntries(x), SortEntries(y));
    SortedWithin(a);
    SortedWithin(b);
    WithinDoesNotMatter(SortEntries(x), Obj(a), Obj(b));
    CanonicalWrites(Obj(a));
    CanonicalWrites(Obj(b));
    hide SortEntries, Defined, Print;
  }

  /** One written entry: its quoted key, a colon, its value. */
  ghost predicate IsEntry(part: Text, e: (Text, Value)) {
    Canonical(e.1).Ok? && part == Quoted(e.0) + [COLON] + Canonical(e.1).value
  }

  lemma {:induction false} EntriesWrite(entries: seq<(Text, Value)>, within: Value)
    requires forall e | e in entries :: e.1 < within
    requires CanonicalEntries(entries, within).Ok?
    ensures var parts := CanonicalEntries(entries, within).value;
      |parts| == |entries| && forall i | 0 <= i < |entries| :: IsEntry(parts[i], entries[i])
    decreases |entries|
  {
    if entries != [] {
      EntriesWrite(entries[1..], within);
      hide Canonical, Quoted;
    }
  }

  lemma {:induction false} JoinAt(parts: seq<Text>, i: nat) returns (before: Text, after: Text)
    requires i < |parts|
    ensures Join(parts) == before + parts[i] + after
    ensures i + 1 < |parts| ==> after == [COMMA] + Join(parts[i + 1..])
  {
    if i == 0 {
      before, after := [], if |parts| == 1 then [] else [COMMA] + Join(parts[1..]);
    } else {
      var b;
      b, after := JoinAt(parts[1..], i - 1);
      assert parts[1..][i - 1] == parts[i] && parts[1..][i - 1 + 1..] == parts[i + 1..];
      before := parts[0] + [COMMA] + b;
    }
  }

  lemma {:induction false} JoinTwo(parts: seq<Text>, i: nat, j: nat)
      returns (before: Text, between: Text, after: Text)
    requires i < j < |parts|
    ensures Join(parts) == before + parts[i] + between + parts[j] + after
  {
    var b, rest := JoinAt(parts, i);
    var c, d := JoinAt(parts[i + 1..], j - i - 1);
    assert parts[i + 1..][j - i - 1] == parts[j];
    hide Join;
    before, between, after := b, [COMMA] + c, d;
    assert b + parts[i] + rest == b + parts[i] + ([COMMA] + c) + parts[j] + d;
  }

  /** An object's text is its defined entries, each once, with strictly ascending keys. */
  lemma {:induction false} ObjectText(entries: seq<(Text, Value)>)
      returns (written: seq<(Text, Value)>, parts: seq<Text>)
    requires Canonical(Obj(entries)).Ok? && DistinctKeys(entries)
    ensures StrictlyAscending(written)
    ensures forall e :: e in written <==> e in entries && e.1 != Undefined
    ensures |parts| == |written| && forall i | 0 <= i < |written| :: IsEntry(parts[i], written[i])
    ensures Canonical(Obj(entries)).value == [OPEN_OBJECT] + Join(parts) + [CLOSE_OBJECT]
  {
    DefinedDistinct(entries);
    DefinedIsFilter(entries);
    SortAscending(Defined(entries));
    SortKeeps(Defined(entries));
    SortedWithin(entries);
    written := SortEntries(Defined(entries));
    parts := CanonicalEntries(written, Obj(entries)).value;
    EntriesWrite(written, Obj(entries));
    hide SortEntries, Defined, Quoted, IsEntry, StrictlyAscending;
  }

  /**
   * Of two defined keys of an accepted object, the one with the smaller code unit where they
   * first differ, or the one that ends there, is written first.
   */
  lemma {:induction false} SmallerKeyFirst(entries: seq<(Text, Value)>, a: (Text, Value), b: (Text, Value), k: nat)
      returns (before: Text, x: Text, between: Text, y: Text, after: Text)
    requires Canonical(Obj(entries)).Ok? && DistinctKeys(entries)
    requires a in entries && b in entries && a.1 != Undefined && b.1 != Undefined
    requires SmallerFrom(a.0, b.0, k)
    ensures IsEntry(x, a) && IsEntry(y, b)
    ensures Canonical(Obj(entries)).value
      == [OPEN_OBJECT] + (before + x + between + y + after) + [CLOSE_OBJECT]
  {
    SmallerIsLess(a.0, b.0, k);
    var written, parts := ObjectText(entries);
    hide IsEntry, Canonical, Join;
    assert a in written && b in written;
    var i :| 0 <= i < |written| && written[i] == a;
    var j :| 0 <= j < |written| && written[j] == b;
    LessAsymmetric(a.0, b.0);
    assert i < j;
    x, y := parts[i], parts[j];
    before, between, after := JoinTwo(parts, i, j);
  }

  lemma {:induction false} LessAsymmetric(a: Text, b: Text)
    requires Less(a, b)
    ensures !Less(b, a) && a != b
  {
    LessIrreflexive(a);
    if Less(b, a) { LessTransitive(a, b, a); }
  }

  lemma {:induction false} WithinDoesNotMatter(entries: seq<(Text, Value)>, v: Value, w: Value)
    requires forall e | e in entries :: e.1 < v && e.1 < w
    ensures MemberMeanings(entries, v) == MemberMeanings(entries, w)
    decreases |entries|
  {
    if entries != [] {
      WithinDoesNotMatter(entries[1..], v, w);
      hide Meaning;
    }
  }

  // ----- what an object's text says of each key -----

  function Lookup<V>(es: seq<(Text, V)>, key: Text): Option<V> {
    if es == [] then None else if es[0].0 == key then Some(es[0].1) else Lookup(es[1..], key)
  }

  lemma {:induction false} InsertLookup<V>(e: (Text, V), es: seq<(Text, V)>, key: Text)
    ensures Lookup(InsertEntry(e, es), key) == if e.0 == key then Some(e.1) else Lookup(es, key)
  {
    if es != [] && Less(es[0].0, e.0) {
      InsertLookup(e, es[1..], key);
      LessIrreflexive(e.0);
    }
  }

  lemma {:induction false} SortLookup<V>(es: seq<(Text, V)>, key: Text)
    ensures Lookup(SortEntries(es), key) == Lookup(es, key)
  {
    if es != [] {
      SortLookup(es[1..], key);
      InsertLookup(es[0], SortEntries(es[1..]), key);
    }
  }

  lemma {:induction false} MembersLookup(entries: seq<(Text, Value)>, within: Value, key: Text)
    requires forall e | e in entries :: e.1 < within
    requires MemberMeanings(entries, within).Some?
    ensures Lookup(MemberMeanings(entries, within).value, key) ==
      match Lookup(entries, key) case None => None case Some(v) => Meaning(v)
    decreases |entries|
  {
    if entries != [] {
      MembersLookup(entries[1..], within, key);
      hide Meaning;
    }
  }

  ghost predicate AllDefined(es: seq<(Text, Value)>) {
    forall i | 0 <= i < |es| :: es[i].1 != Undefined
  }

  lemma {:induction false} DefinedAll(es: seq<(Text, Value)>)
    requires AllDefined(es)
    ensures Defined(es) == es
  {
    if es != [] {
      assert es[0].1 != Undefined;
      DefinedAll(es[1..]);
      assert es == [es[0]] + es[1..];
    }
  }

  /** Objects with the same meaning give every key the same meaning. */
  lemma {:induction false} SameMembers(a: seq<(Text, Value)>, b: seq<(Text, Value)>, key: Text)
    requires Meaning(Obj(a)).Some? && Meaning(Obj(a)) == Meaning(Obj(b))
    requires AllDefined(a) && AllDefined(b)
    ensures match (Lookup(a, key), Lookup(b, key))
      case (None, None) => true
      case (Some(v), Some(w)) => Meaning(v) == Meaning(w)
      case (Some(v), None) => Meaning(v) == None
      case (None, Some(w)) => Meaning(w) == None
  {
    SortedWithin(a);
    SortedWithin(b);
    DefinedAll(a);
    DefinedAll(b);
    SortLookup(a, key);
    SortLookup(b, key);
    MembersLookup(SortEntries(a), Obj(a), key);
    MembersLookup(SortEntries(b), Obj(b), key);
    hide SortEntries, Defined, Lookup, MemberMeanings;
  }

  lemma {:induction false} AcceptedMembers(entries: seq<(Text, Value)>, within: Value)
    requires forall e | e in entries :: e.1 < within
    requires forall e | e in entries :: Meaning(e.1).Some?
    ensures MemberMeanings(entries, within).Some?
    decreases |entries|
  {
    if entries != [] {
      AcceptedMembers(entries[1..], within);
      hide Meaning;
    }
  }

  /** An object of accepted values is accepted. */
  lemma {:induction false} ObjectAccepted(entries: seq<(Text, Value)>)
    requires forall e | e in entries :: Meaning(e.1).Some?
    ensures Meaning(Obj(entries)).Some?
  {
    SortedWithin(entries);
    AcceptedMembers(SortEntries(Defined(entries)), Obj(entries));
    hide SortEntries, Defined;
  }

  lemma {:induction false} ItemsPointwise(items: seq<Value>, i: nat)
    requires ItemMeanings(items).Some? && i < |items| && items[i] != Undefined
    ensures |ItemMeanings(items).value| == |items| && Some(ItemMeanings(items).value[i]) == Meaning(items[i])
  {
    ItemsCount(items);
    if i > 0 { ItemsPointwise(items[1..], i - 1); }
    hide Meaning;
  }

  lemma {:induction false} ItemsCount(items: seq<Value>)
    requires ItemMeanings(items).Some?
    ensures |ItemMeanings(items).value| == |items|
  {
    if items != [] { ItemsCount(items[1..]); }
    hide Meaning;
  }

  // ----- the text is safe to encode -----

  /** No lone surrogate, and no control character. */
  predicate Clean(t: Text)
    decreases |t|
  {
    t == []
    || (t[0] >= 0x20
        && (if StartsPair(t) then Clean(t[2..]) else !IsHigh(t[0]) && !IsLow(t[0]) && Clean(t[1..])))
  }

  lemma {:induction false} CleanAppend(a: Text, b: Text)
    requires Clean(a) && Clean(b)
    ensures Clean(a + b)
    decreases |a|
  {
    if a == [] {
      assert a + b == b;
    } else if StartsPair(a) {
      assert (a + b)[2..] == a[2..] + b;
      CleanAppend(a[2..], b);
    } else {
      assert (a + b)[1..] == a[1..] + b;
      CleanAppend(a[1..], b);
    }
  }

  lemma {:induction false} PlainIsClean(t: Text)
    requires forall i | 0 <= i < |t| :: 0x20 <= t[i] < 0xd800
    ensures Clean(t)
    decreases |t|
  {
    if t != [] { PlainIsClean(t[1..]); }
  }

  lemma {:induction false} EscapeIsClean(s: Text)
    ensures Clean(Escape(s))
    decreases |s|
  {
    if s == [] {
    } else if StartsPair(s) {
      EscapeIsClean(s[2..]);
      assert ([s[0], s[1]] + Escape(s[2..]))[2..] == Escape(s[2..]);
    } else {
      EscapeIsClean(s[1..]);
      EscapedUnitIsClean(s[0]);
      CleanAppend(EscapeUnit(s[0]), Escape(s[1..]));
    }
  }

  lemma {:induction false} EscapedUnitIsClean(c: CodeUnit)
    ensures Clean(EscapeUnit(c))
  {
    var e := EscapeUnit(c);
    if e != [c] || c < 0xd800 {
      PlainIsClean(e);
    } else {
      assert e[1..] == [];
    }
  }

  lemma {:induction false} QuotedIsClean(s: Text)
    ensures Clean(Quoted(s))
  {
    EscapeIsClean(s);
    PlainIsClean([QUOTE]);
    hide Escape;
    CleanAppend([QUOTE], Escape(s));
    CleanAppend([QUOTE] + Escape(s), [QUOTE]);
  }

  lemma {:induction false} CleanAround(open: CodeUnit, t: Text, close: CodeUnit)
    requires Clean(t) && 0x20 <= open < 0x80 && 0x20 <= close < 0x80
    ensures Clean([open] + t + [close])
  {
    PlainIsClean([open]);
    PlainIsClean([close]);
    CleanAppend([open], t);
    CleanAppend([open] + t, [close]);
  }

  lemma {:induction false} PrintIsClean(t: Tree)
    ensures Clean(Print(t))
    decreases t, 1
  {
    match t
    case NumberTree(n) => PlainIsClean(Numeral(n));
    case StringTree(s) => QuotedIsClean(s);
    case ArrayTree(items) =>
      ItemsAreClean(items);
      CleanAround(OPEN_ARRAY, PrintItems(items), CLOSE_ARRAY);
    case ObjectTree(members) =>
      MembersAreClean(members);
      CleanAround(OPEN_OBJECT, PrintMembers(members), CLOSE_OBJECT);
    case NullTree => PlainIsClean(Print(t));
    case BoolTree(_) => PlainIsClean(Print(t));
  }

  lemma {:induction false} CleanList(a: Text, b: Text)
    requires Clean(a) && Clean(b)
    ensures Clean(a + [COMMA] + b) && Clean(a + [COLON] + b)
  {
    PlainIsClean([COMMA]);
    PlainIsClean([COLON]);
    CleanAppend(a, [COMMA]);
    CleanAppend(a + [COMMA], b);
    CleanAppend(a, [COLON]);
    CleanAppend(a + [COLON], b);
  }

  lemma {:induction false} ItemsAreClean(items: seq<Tree>)
    ensures Clean(PrintItems(items))
    decreases items, 0
  {
    hide Clean;
    if items == [] {
      PlainIsClean([]);
    } else {
      PrintIsClean(items[0]);
      ItemsAreClean(items[1..]);
      CleanList(Print(items[0]), PrintItems(items[1..]));
    }
  }

  lemma {:induction false} MembersAreClean(members: seq<(Text, Tree)>)
    ensures Clean(PrintMembers(members))
    decreases members, 0
  {
    hide Clean;
    if members == [] {
      PlainIsClean([]);
    } else {
      MemberIsClean(members[0]);
      MembersAreClean(members[1..]);
      CleanList(PrintMember(members[0]), PrintMembers(members[1..]));
    }
  }

  lemma {:induction false} MemberIsClean(m: (Text, Tree))
    ensures Clean(PrintMember(m))
    decreases m, 0
  {
    QuotedIsClean(m.0);
    PrintIsClean(m.1);
    CleanList(Quoted(m.0), Print(m.1));
  }

  /** Canonical text holds no control character and no lone surrogate, so UTF-8 loses nothing. */
  lemma {:induction false} CanonicalIsClean(v: Value)
    requires Canonical(v).Ok?
    ensures Clean(Canonical(v).value)
  {
    CanonicalWrites(v);
    PrintIsClean(Meaning(v).value);
  }
}
