/** What one frame says: its lines, whatever their order, and the event they add up to. */
module SseFields {
  import opened Prelude
  import opened Sse
  import opened SseStream

  // ----- lines and text -----

  ghost predicate NoLineEnds(lines: seq<string>) {
    forall i | 0 <= i < |lines| :: '\n' !in lines[i]
  }

  /** Splitting undoes joining, and finds lines. */
  lemma {:induction false} SplitJoined(lines: seq<string>)
    requires lines != [] && NoLineEnds(lines)
    ensures Split(Join(lines)) == lines
  {
    if |lines| == 1 {
      SplitLine(lines[0], []);
    } else {
      SplitJoined(lines[1..]);
      SplitLine(lines[0], Join(lines[1..]));
      assert lines == [lines[0]] + lines[1..];
    }
  }

  lemma {:induction false} JoinSplit(s: string)
    ensures Join(Split(s)) == s && NoLineEnds(Split(s))
  {
    if s != [] {
      JoinSplit(s[1..]);
      var r := Split(s[1..]);
      if s[0] == '\n' {
        assert ([[]] + r)[1..] == r;
        assert s == ['\n'] + s[1..];
      } else {
        var whole := [[s[0]] + r[0]] + r[1..];
        assert whole[1..] == r[1..];
        assert s == [s[0]] + s[1..];
        forall i | 0 <= i < |whole|
          ensures '\n' !in whole[i]
        {
          if i > 0 { assert whole[i] == r[i]; }
        }
      }
    }
  }

  // ----- the lines of a frame -----

  /** A field with its value, after a colon and at most one space, or a bare field name; or a comment. */
  datatype Line = Field(name: string, value: Option<string>, spaced: bool) | Comment(text: string)

  ghost predicate Legal(l: Line) {
    match l
    case Comment(text) => '\n' !in text
    case Field(name, value, spaced) =>
      && name != "" && ':' !in name && '\n' !in name
      && (value.Some? ==> '\n' !in value.value && (!spaced && value.value != "" ==> value.value[0] != ' '))
  }

  function Written(l: Line): string {
    match l
    case Comment(text) => ":" + text
    case Field(name, None, _) => name
    case Field(name, Some(value), spaced) => name + ":" + ((if spaced then " " else "") + value)
  }

  function WrittenAll(lines: seq<Line>): (r: seq<string>)
    ensures |r| == |lines| && forall i | 0 <= i < |r| :: r[i] == Written(lines[i])
  {
    seq(|lines|, i requires 0 <= i < |lines| => Written(lines[i]))
  }

  /** The values given for a field, in order; a bare name gives an empty one. */
  function ValuesOf(lines: seq<Line>, name: string): seq<string> {
    if lines == [] then []
    else
      ValuesOf(lines[..|lines| - 1], name)
      + (match lines[|lines| - 1]
         case Comment(_) => []
         case Field(field, value, _) =>
           if field == name then [if value.Some? then value.value else ""] else [])
  }

  function Last(values: seq<string>): Option<string> {
    if values == [] then None else Some(values[|values| - 1])
  }

  /** What the lines add up to: all data joined by newlines, and the last name and id given. */
  function Meant(lines: seq<Line>): Emitted {
    var data := ValuesOf(lines, "data");
    if data == [] then Nothing
    else if Join(data) == "[DONE]" then Stop
    else Dispatch(Event(Join(data), Last(ValuesOf(lines, "event")), Last(ValuesOf(lines, "id"))))
  }

  // ----- reading them back -----

  lemma {:induction false} FieldSplit(name: string, raw: string)
    requires name != "" && ':' !in name
    ensures var line := name + ":" + raw;
      && line != [] && line[0] != ':' && IndexOf(line, ':') == |name|
      && line[..|name|] == name && line[|name| + 1..] == raw
  {
    FirstColon(name, raw);
    assert (name + ":" + raw)[0] == name[0] && name[0] in name;
  }

  lemma {:induction false} NoColon(name: string)
    requires ':' !in name
    ensures IndexOf(name, ':') == |name|
  {
    if name != [] { NoColon(name[1..]); }
  }

  lemma {:induction false} LineReads(l: Line)
    requires Legal(l)
    ensures ParseLine(Written(l)) == (
      match l
      case Comment(_) => Ignored
      case Field(name, value, _) =>
        var v := if value.Some? then value.value else "";
        if name == "data" then Data(v) else if name == "event" then Name(v) else if name == "id" then Id(v)
        else Ignored)
  {
    match l
    case Comment(text) =>
    case Field(name, None, _) =>
      NoColon(name);
      assert name[0] in name && name[..|name|] == name;
    case Field(name, Some(value), spaced) =>
      var raw := (if spaced then " " else "") + value;
      FieldSplit(name, raw);
      assert spaced ==> raw[0] == ' ' && raw[1..] == value;
      assert !spaced ==> raw == value;
      hide IndexOf;
  }

  lemma {:induction false} LinesGather(lines: seq<Line>)
    requires forall i | 0 <= i < |lines| :: Legal(lines[i])
    ensures Gather(EMPTY_FRAME, WrittenAll(lines))
      == Frame(ValuesOf(lines, "data"), Last(ValuesOf(lines, "event")), Last(ValuesOf(lines, "id")))
  {
    hide Written, ParseLine, Legal;
    if lines != [] {
      var last := |lines| - 1;
      LinesGather(lines[..last]);
      LineReads(lines[last]);
      assert WrittenAll(lines) == WrittenAll(lines[..last]) + [Written(lines[last])];
      GatherAppend(EMPTY_FRAME, WrittenAll(lines[..last]), [Written(lines[last])]);
      GatherOne(Gather(EMPTY_FRAME, WrittenAll(lines[..last])), Written(lines[last]));
    }
  }

  lemma {:induction false} GatherOne(f: Sse.Frame, line: string)
    ensures Gather(f, [line]) == AddField(f, ParseLine(line))
  {
    hide ParseLine, AddField;
    assert [line][1..] == [];
  }

  lemma {:induction false} WrittenHasNoLineEnd(l: Line)
    requires Legal(l)
    ensures Written(l) != [] && '\n' !in Written(l)
  {}

  /**
   * A frame of any lines, in any order, is read as what they add up to: the values of all `data`
   * lines joined by newlines, the last `event` and the last `id`; comments and other fields are
   * nothing; no `data` line, no event; and the sentinel ends the stream.
   */
  lemma {:induction false} FrameReads(lines: seq<Line>)
    requires lines != [] && forall i | 0 <= i < |lines| :: Legal(lines[i])
    ensures Emit(Join(WrittenAll(lines))) == Meant(lines)
  {
    hide Written, Legal, Join, Split, Gather;
    forall i | 0 <= i < |lines|
      ensures '\n' !in Written(lines[i])
    {
      WrittenHasNoLineEnd(lines[i]);
    }
    SplitJoined(WrittenAll(lines));
    LinesGather(lines);
  }

  lemma {:induction false} JoinedHasNoBoundary(lines: seq<string>)
    requires lines != [] && NoLineEnds(lines) && forall i | 0 <= i < |lines| :: lines[i] != []
    ensures var s := Join(lines); Boundary(s).None? && s != [] && s[0] != '\n' && s[|s| - 1] != '\n'
  {
    if |lines| == 1 {
      LineHasNoBoundary(lines[0]);
    } else {
      var rest := Join(lines[1..]);
      JoinedHasNoBoundary(lines[1..]);
      LineThenNoBoundary(lines[0], rest);
    }
  }

  lemma {:induction false} LineThenNoBoundary(line: string, rest: string)
    requires '\n' !in line && rest != [] && rest[0] != '\n' && Boundary(rest).None?
    ensures Boundary(line + ['\n'] + rest).None?
  {
    if line == [] {
      assert (line + ['\n'] + rest)[1..] == rest;
    } else {
      assert (line + ['\n'] + rest)[1..] == line[1..] + ['\n'] + rest;
      LineThenNoBoundary(line[1..], rest);
    }
  }

  /** The same in a stream: the frame and its blank line are consumed, and reading goes on after them. */
  lemma {:induction false} StreamReads(lines: seq<Line>, rest: string)
    requires lines != [] && forall i | 0 <= i < |lines| :: Legal(lines[i])
    ensures Frames(Join(WrittenAll(lines)) + "\n\n" + rest) == (
      match Meant(lines)
      case Stop => Parsed([], true, rest)
      case Nothing => Frames(rest)
      case Dispatch(e) => Frames(rest).(events := [e] + Frames(rest).events))
  {
    hide Written, Legal, Join, Emit, Meant, Frames;
    forall i | 0 <= i < |lines|
      ensures '\n' !in Written(lines[i]) && Written(lines[i]) != []
    {
      WrittenHasNoLineEnd(lines[i]);
    }
    JoinedHasNoBoundary(WrittenAll(lines));
    FrameReads(lines);
    ReadFrame(Join(WrittenAll(lines)), rest);
  }

  // ----- line ends -----

  datatype Ended = Ended(line: string, term: LineEnd)

  datatype LineEnd = Lf | Cr | CrLf

  function EndText(e: LineEnd): string {
    match e
    case Lf => "\n"
    case Cr => "\r"
    case CrLf => "\r\n"
  }

  function EndedText(lines: seq<Ended>): string {
    if lines == [] then "" else lines[0].line + EndText(lines[0].term) + EndedText(lines[1..])
  }

  function LfText(lines: seq<Ended>): string {
    if lines == [] then "" else lines[0].line + "\n" + LfText(lines[1..])
  }

  /** No line holds a line end, and no CR stands before an LF that ends an empty line. */
  ghost predicate WellEnded(lines: seq<Ended>) {
    && (forall i | 0 <= i < |lines| :: OneLine(lines[i].line))
    && (forall i | 0 < i < |lines| :: lines[i - 1].term == Cr ==> lines[i].line != "" || lines[i].term != Lf)
  }

  /** However its lines end, LF, CR or CR LF, a text is normalized to the same lines ended by LF. */
  lemma {:induction false} LineEndsNormalized(lines: seq<Ended>)
    requires WellEnded(lines)
    ensures Normalize(EndedText(lines)) == LfText(lines)
  {
    if lines != [] {
      var line, end, rest := lines[0].line, EndText(lines[0].term), EndedText(lines[1..]);
      assert WellEnded(lines[1..]) by {
        assert forall i | 0 <= i < |lines[1..]| :: lines[1..][i] == lines[i + 1];
      }
      LineEndsNormalized(lines[1..]);
      assert EndedText(lines) == line + (end + rest);
      NormalizePrefix(line, end + rest);
      EndNormalized(lines[0].term, rest, lines);
    }
  }

  lemma {:induction false} EndNormalized(term: LineEnd, rest: string, lines: seq<Ended>)
    requires WellEnded(lines) && lines != [] && term == lines[0].term && rest == EndedText(lines[1..])
    ensures Normalize(EndText(term) + rest) == "\n" + Normalize(rest)
  {
    var t := EndText(term) + rest;
    match term
    case Lf => assert t[1..] == rest;
    case CrLf => assert t[2..] == rest;
    case Cr =>
      if rest != [] {
        var next := lines[1];
        assert lines[1..] != [] && lines[1..][0] == next;
        assert rest == next.line + (EndText(next.term) + EndedText(lines[1..][1..]));
        assert rest[0] != '\n';
      }
      assert t[1..] == rest;
  }

  // ----- a response that ends early -----

  /** A response found ended before its k-th chunk has the chunks before it, and no sentinel. */
  lemma {:induction false} StoppedEarly(ps: seq<string>, failure: Option<string>, k: nat)
    requires Payloads(ps) && k <= |ps|
    ensures Whole(Streamed(ps, failure, Some(k))) == Parsed(Plain(ps[..k]), false, [])
  {
    var sent := ps[..k];
    assert Payloads(sent);
    assert Streamed(ps, failure, Some(k)) == Printed(sent);
    PrintedHasNoCr(sent);
    NormalizeKeeps(Printed(sent));
    ReadPrinted(sent, []);
    assert Printed(sent) + [] == Printed(sent);
    assert Frames([]) == Parsed([], false, []);
    assert Plain(sent) + [] == Plain(sent);
    BlankEmitsNothing([]);
    hide Frames, Printed, Normalize, Emit;
  }
}
