/** Strings as the runtime holds them, the order it compares them in, and sorting by that order. */
module CodeUnits {
  /** UTF-16 code units, as the runtime's strings hold them. */
  type CodeUnit = x: int | 0 <= x < 0x10000

  type Text = seq<CodeUnit>

  predicate IsHigh(c: CodeUnit) {
    0xd800 <= c < 0xdc00
  }

  predicate IsLow(c: CodeUnit) {
    0xdc00 <= c < 0xe000
  }

  /** The code units of one character: one, or a surrogate pair. */
  function UnitsOf(c: char): (r: Text)
    ensures r != []
  {
    var n := c as int;
    if n < 0x10000 then [n]
    else [0xd800 + (n - 0x10000) / 0x400, 0xdc00 + (n - 0x10000) % 0x400]
  }

  function Utf16(s: string): Text {
    if s == "" then [] else UnitsOf(s[0]) + Utf16(s[1..])
  }

  lemma {:induction false} FirstCharacter(c: char, x: Text, d: char, y: Text)
    requires UnitsOf(c) + x == UnitsOf(d) + y
    ensures c == d && x == y
  {
    var t, u := UnitsOf(c) + x, UnitsOf(d) + y;
    assert t[0] == UnitsOf(c)[0] && u[0] == UnitsOf(d)[0];
    if |UnitsOf(c)| == 2 && |UnitsOf(d)| == 2 {
      assert t[1] == UnitsOf(c)[1] && u[1] == UnitsOf(d)[1];
    }
    assert |UnitsOf(c)| == |UnitsOf(d)|;
    assert x == t[|UnitsOf(c)|..] && y == u[|UnitsOf(d)|..];
  }

  /** Different strings have different code units. */
  lemma {:induction false} Utf16Injective(a: string, b: string)
    requires Utf16(a) == Utf16(b)
    ensures a == b
  {
    if a != "" && b != "" {
      FirstCharacter(a[0], Utf16(a[1..]), b[0], Utf16(b[1..]));
      Utf16Injective(a[1..], b[1..]);
      assert a == [a[0]] + a[1..] && b == [b[0]] + b[1..];
    }
  }

  /** The characters that code units stand for: a surrogate pair for one, anything else for itself. */
  function Characters(t: Text): seq<int>
    decreases |t|
  {
    if t == [] then []
    else if |t| > 1 && IsHigh(t[0]) && IsLow(t[1]) then
      [0x10000 + (t[0] - 0xd800) * 0x400 + (t[1] - 0xdc00)] + Characters(t[2..])
    else [t[0] as int] + Characters(t[1..])
  }

  lemma {:induction false} OneCharacter(c: char, rest: Text)
    ensures Characters(UnitsOf(c) + rest) == [c as int] + Characters(rest)
  {
    var t := UnitsOf(c) + rest;
    if c as int >= 0x10000 {
      assert t[2..] == rest;
    } else {
      assert t[1..] == rest;
    }
  }

  /** A string's code units stand for exactly its characters. */
  lemma {:induction false} Utf16Decodes(s: string)
    ensures |Characters(Utf16(s))| == |s|
    ensures forall i | 0 <= i < |s| :: Characters(Utf16(s))[i] == s[i] as int
  {
    if s != "" {
      OneCharacter(s[0], Utf16(s[1..]));
      Utf16Decodes(s[1..]);
    }
  }

  predicate Less(a: Text, b: Text) {
    b != [] && (a == [] || a[0] < b[0] || (a[0] == b[0] && Less(a[1..], b[1..])))
  }

  /** `a` and `b` agree up to `k`, where `a` ends or has the smaller unit. */
  predicate SmallerFrom(a: Text, b: Text, k: nat) {
    && k <= |a| && k < |b| && a[..k] == b[..k]
    && (k < |a| ==> a[k] < b[k])
  }

  /** Less at the first difference, where a text that ends there is less. */
  lemma {:induction false} LessIff(a: Text, b: Text)
    ensures Less(a, b) <==> exists k: nat :: SmallerFrom(a, b, k)
  {
    if Less(a, b) {
      var k := WhereLess(a, b);
    } else if exists k: nat :: SmallerFrom(a, b, k) {
      var k: nat :| SmallerFrom(a, b, k);
      SmallerIsLess(a, b, k);
    }
  }

  lemma {:induction false} WhereLess(a: Text, b: Text) returns (k: nat)
    requires Less(a, b)
    ensures SmallerFrom(a, b, k)
  {
    if a == [] || a[0] < b[0] {
      k := 0;
    } else {
      var j := WhereLess(a[1..], b[1..]);
      k := j + 1;
      assert a[..k] == [a[0]] + a[1..][..j] && b[..k] == [b[0]] + b[1..][..j];
    }
  }

  lemma {:induction false} SmallerIsLess(a: Text, b: Text, k: nat)
    requires SmallerFrom(a, b, k)
    ensures Less(a, b)
  {
    if k > 0 {
      assert a[0] == a[..k][0] == b[..k][0] == b[0];
      assert a[1..][..k - 1] == a[..k][1..] && b[1..][..k - 1] == b[..k][1..];
      SmallerIsLess(a[1..], b[1..], k - 1);
    }
  }

  lemma {:induction false} LessIrreflexive(a: Text)
    ensures !Less(a, a)
  {
    if a != [] { LessIrreflexive(a[1..]); }
  }

  lemma {:induction false} LessTransitive(a: Text, b: Text, c: Text)
    requires Less(a, b) && Less(b, c)
    ensures Less(a, c)
  {
    if a != [] && a[0] == b[0] && b[0] == c[0] { LessTransitive(a[1..], b[1..], c[1..]); }
  }

  lemma {:induction false} LessTotal(a: Text, b: Text)
    ensures Less(a, b) || a == b || Less(b, a)
  {
    if a != [] && b != [] && a[0] == b[0] {
      LessTotal(a[1..], b[1..]);
      if a[1..] == b[1..] { assert a == [a[0]] + a[1..] && b == [b[0]] + b[1..]; }
    }
  }

  function InsertEntry<V>(e: (Text, V), es: seq<(Text, V)>): seq<(Text, V)> {
    if es == [] || !Less(es[0].0, e.0) then [e] + es else [es[0]] + InsertEntry(e, es[1..])
  }

  /** Ascending by key, equal keys in their original order. */
  function SortEntries<V>(es: seq<(Text, V)>): seq<(Text, V)> {
    if es == [] then [] else InsertEntry(es[0], SortEntries(es[1..]))
  }

  lemma {:induction false} InsertKeeps<V(!new)>(e: (Text, V), es: seq<(Text, V)>)
    ensures forall x :: x in InsertEntry(e, es) <==> x == e || x in es
    ensures |InsertEntry(e, es)| == |es| + 1
  {
    if es != [] && Less(es[0].0, e.0) {
      InsertKeeps(e, es[1..]);
      assert forall x :: x in es <==> x == es[0] || x in es[1..];
    }
  }

  lemma {:induction false} SortKeeps<V(!new)>(es: seq<(Text, V)>)
    ensures forall x :: x in SortEntries(es) <==> x in es
    ensures |SortEntries(es)| == |es|
  {
    if es != [] {
      SortKeeps(es[1..]);
      InsertKeeps(es[0], SortEntries(es[1..]));
      assert forall x :: x in es <==> x == es[0] || x in es[1..];
    }
  }

  ghost predicate DistinctKeys<V>(es: seq<(Text, V)>) {
    forall i, j | 0 <= i < j < |es| :: es[i].0 != es[j].0
  }

  ghost predicate StrictlyAscending<V>(es: seq<(Text, V)>) {
    forall i, j | 0 <= i < j < |es| :: Less(es[i].0, es[j].0)
  }

  ghost predicate SameEntries<V(!new)>(a: seq<(Text, V)>, b: seq<(Text, V)>) {
    forall e :: e in a <==> e in b
  }

  lemma {:induction false} InsertAscending<V(!new)>(e: (Text, V), es: seq<(Text, V)>)
    requires StrictlyAscending(es) && forall x | x in es :: x.0 != e.0
    ensures StrictlyAscending(InsertEntry(e, es))
  {
    if es != [] {
      assert es[0] in es;
      LessTotal(es[0].0, e.0);
      if Less(es[0].0, e.0) {
        assert forall x | x in es[1..] :: x in es;
        InsertAscending(e, es[1..]);
        InsertKeeps(e, es[1..]);
        var tail := InsertEntry(e, es[1..]);
        forall i | 0 <= i < |tail|
          ensures Less(es[0].0, tail[i].0)
        {
          assert tail[i] in tail;
          if tail[i] != e { var k :| 0 <= k < |es[1..]| && es[1..][k] == tail[i]; assert es[k + 1] == tail[i]; }
        }
      } else {
        forall i | 0 < i < |es|
          ensures Less(e.0, es[i].0)
        {
          LessTransitive(e.0, es[0].0, es[i].0);
        }
      }
    }
  }

  lemma {:induction false} SortAscending<V(!new)>(es: seq<(Text, V)>)
    requires DistinctKeys(es)
    ensures StrictlyAscending(SortEntries(es))
  {
    if es != [] {
      SortAscending(es[1..]);
      SortKeeps(es[1..]);
      forall x | x in SortEntries(es[1..])
        ensures x.0 != es[0].0
      {
        var k :| 0 <= k < |es[1..]| && es[1..][k] == x;
        assert es[k + 1] == x;
      }
      InsertAscending(es[0], SortEntries(es[1..]));
    }
  }

  lemma {:induction false} FirstIsLeast<V(!new)>(s: seq<(Text, V)>, e: (Text, V))
    requires StrictlyAscending(s) && e in s
    ensures e == s[0] || Less(s[0].0, e.0)
  {
    var k :| 0 <= k < |s| && s[k] == e;
  }

  lemma {:induction false} SameFirst<V(!new)>(s: seq<(Text, V)>, t: seq<(Text, V)>)
    requires StrictlyAscending(s) && StrictlyAscending(t) && SameEntries(s, t) && s != [] && t != []
    ensures s[0] == t[0]
  {
    assert s[0] in t && t[0] in s;
    FirstIsLeast(s, t[0]);
    FirstIsLeast(t, s[0]);
    if s[0] != t[0] {
      LessTransitive(s[0].0, t[0].0, s[0].0);
      LessIrreflexive(s[0].0);
    }
  }

  lemma {:induction false} TailEntries<V(!new)>(s: seq<(Text, V)>, e: (Text, V))
    requires StrictlyAscending(s) && s != []
    ensures e in s[1..] <==> e in s && e != s[0]
  {
    assert s == [s[0]] + s[1..];
    if e in s[1..] {
      var k :| 0 <= k < |s[1..]| && s[1..][k] == e;
      assert Less(s[0].0, s[k + 1].0);
      LessIrreflexive(s[0].0);
    }
  }

  lemma {:induction false} SomeEntry<V(!new)>(t: seq<(Text, V)>)
    ensures t == [] || exists e :: e in t
  {
    if t != [] { assert t[0] in t; }
  }

  lemma {:induction false} AscendingUnique<V(!new)>(s: seq<(Text, V)>, t: seq<(Text, V)>)
    requires StrictlyAscending(s) && StrictlyAscending(t) && SameEntries(s, t)
    ensures s == t
  {
    if s == [] {
      SomeEntry(t);
    } else {
      assert s[0] in t;
      SameFirst(s, t);
      forall e ensures e in s[1..] <==> e in t[1..] {
        TailEntries(s, e);
        TailEntries(t, e);
      }
      AscendingUnique(s[1..], t[1..]);
      assert s == [s[0]] + s[1..] && t == [t[0]] + t[1..];
    }
  }
}
