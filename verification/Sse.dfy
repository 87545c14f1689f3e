// Server-sent events: the incremental frame parser of the node daemon, a whole-text parse it
// must agree with however the text is cut, and the frame printer it must invert. The format is
// that of the WHATWG HTML standard, sections 9.2.5 and 9.2.6, except that an unterminated last
// frame is dispatched.
module Sse {
  import opened Prelude

  datatype Event = Event(data: string, name: Option<string>, id: Option<string>)

  const DONE := "[DONE]"

  // ----- one frame -----

  function Split(s: string): (r: seq<string>)
    ensures |r| > 0
  {
    if s == [] then [[]]
    else if s[0] == '\n' then [[]] + Split(s[1..])
    else
      var r := Split(s[1..]);
      [[s[0]] + r[0]] + r[1..]
  }

  function Join(lines: seq<string>): string {
    if lines == [] then []
    else if |lines| == 1 then lines[0]
    else lines[0] + ['\n'] + Join(lines[1..])
  }

  function IndexOf(s: string, c: char): (i: nat)
    ensures i <= |s| && (i < |s| ==> s[i] == c) && c !in s[..i]
  {
    if s == [] || s[0] == c then 0 else 1 + IndexOf(s[1..], c)
  }

  datatype Field = Ignored | Data(value: string) | Name(value: string) | Id(value: string)

  function ParseLine(line: string): Field {
    if line == [] || line[0] == ':' then Ignored
    else
      var colon := IndexOf(line, ':');
      var field := line[..colon];
      var raw := if colon == |line| then [] else line[colon + 1..];
      var value := if raw != [] && raw[0] == ' ' then raw[1..] else raw;
      if field == "data" then Data(value)
      else if field == "event" then Name(value)
      else if field == "id" then Id(value)
      else Ignored
  }

  datatype Frame = Frame(data: seq<string>, name: Option<string>, id: Option<string>)

  const EMPTY_FRAME := Frame([], None, None)

  function AddField(f: Frame, field: Field): Frame {
    match field
    case Ignored => f
    case Data(v) => f.(data := f.data + [v])
    case Name(v) => f.(name := Some(v))
    case Id(v) => f.(id := Some(v))
  }

  function Gather(f: Frame, lines: seq<string>): Frame
    decreases |lines|
  {
    if lines == [] then f else Gather(AddField(f, ParseLine(lines[0])), lines[1..])
  }

  datatype Emitted = Nothing | Stop | Dispatch(event: Event)

  function Emit(frame: string): Emitted {
    var f := Gather(EMPTY_FRAME, Split(frame));
    if f.data == [] then Nothing
    else if Join(f.data) == DONE then Stop
    else Dispatch(Event(Join(f.data), f.name, f.id))
  }

  // ----- the whole text -----

  /** CR LF and lone CR become LF. */
  function Normalize(s: string): string {
    if s == [] then []
    else if s[0] != '\r' then [s[0]] + Normalize(s[1..])
    else if |s| > 1 && s[1] == '\n' then ['\n'] + Normalize(s[2..])
    else ['\n'] + Normalize(s[1..])
  }

  /** Where the leftmost blank line starts, if there is one. */
  function Boundary(s: string): (b: Option<nat>)
    ensures b.Some? ==> b.value + 2 <= |s|
  {
    if |s| < 2 then None
    else if s[0] == '\n' && s[1] == '\n' then Some(0)
    else
      match Boundary(s[1..])
      case None => None
      case Some(i) => Some(i + 1)
  }

  datatype Parsed = Parsed(events: seq<Event>, done: bool, rest: string)

  /** The frames a blank line ends, up to the sentinel, and what is left after them. */
  function Frames(s: string): Parsed
    decreases |s|
  {
    match Boundary(s)
    case None => Parsed([], false, s)
    case Some(i) =>
      match Emit(s[..i])
      case Stop => Parsed([], true, s[i + 2..])
      case Nothing => Frames(s[i + 2..])
      case Dispatch(e) =>
        var more := Frames(s[i + 2..]);
        more.(events := [e] + more.events)
  }

  /** Normalise, cut at blank lines, stop at the sentinel, dispatch what is left over. */
  function Whole(text: string): Parsed {
    var p := Frames(Normalize(text));
    if p.done then p.(rest := [])
    else
      match Emit(p.rest)
      case Nothing => p.(rest := [])
      case Stop => Parsed(p.events, true, [])
      case Dispatch(e) => Parsed(p.events + [e], false, [])
  }

  // ----- the incremental parser, as a value -----

  datatype State = State(buffer: string, pendingCr: bool, finished: bool)

  const START := State([], false, false)

  function Append(s: State, chunk: string): State {
    var buffer := if s.pendingCr then s.buffer + ['\n'] else s.buffer;
    var text := if s.pendingCr && chunk != [] && chunk[0] == '\n' then chunk[1..] else chunk;
    if text != [] && text[|text| - 1] == '\r'
    then s.(buffer := buffer + Normalize(text[..|text| - 1]), pendingCr := true)
    else s.(buffer := buffer + Normalize(text), pendingCr := false)
  }

  function Push(s: State, chunk: string): (State, seq<Event>) {
    if s.finished || chunk == [] then (s, [])
    else
      var a := Append(s, chunk);
      var p := Frames(a.buffer);
      (a.(buffer := p.rest, finished := p.done), p.events)
  }

  predicate Blank(s: string) {
    forall i | 0 <= i < |s| :: IsSpace(s[i])
  }

  function Flush(s: State): (State, seq<Event>) {
    if s.finished then (s, [])
    else
      var rest := if s.pendingCr then s.buffer + ['\n'] else s.buffer;
      var emptied := State([], false, false);
      if Blank(rest) then (emptied, [])
      else
        match Emit(rest)
        case Nothing => (emptied, [])
        case Stop => (emptied.(finished := true), [])
        case Dispatch(e) => (emptied, [e])
  }

  function PushAll(s: State, chunks: seq<string>): (State, seq<Event>)
    decreases |chunks|
  {
    if chunks == [] then (s, [])
    else
      var (next, first) := Push(s, chunks[0]);
      var (last, more) := PushAll(next, chunks[1..]);
      (last, first + more)
  }

  /** A whole stream: every chunk, then the end of the transport. */
  function Stream(chunks: seq<string>): (State, seq<Event>) {
    var (s, events) := PushAll(START, chunks);
    var (last, more) := Flush(s);
    (last, events + more)
  }

  function Concat(chunks: seq<string>): string {
    if chunks == [] then [] else chunks[0] + Concat(chunks[1..])
  }

  // ----- normalising in pieces -----

  lemma {:induction false} NormalizeSplit(a: string, b: string)
    requires a == [] || b == [] || a[|a| - 1] != '\r' || b[0] != '\n'
    ensures Normalize(a + b) == Normalize(a) + Normalize(b)
    decreases |a|
  {
    if a == [] {
      assert a + b == b;
    } else if a[0] == '\r' && |a| > 1 && a[1] == '\n' {
      assert (a + b)[2..] == a[2..] + b;
      NormalizeSplit(a[2..], b);
    } else if a == ['\r'] {
      NormalizeCr();
      assert (a + b)[1..] == b;
      assert |b| > 0 ==> (a + b)[1] == b[0];
    } else {
      assert (a + b)[1..] == a[1..] + b;
      NormalizeSplit(a[1..], b);
    }
  }

  lemma {:induction false} NormalizeCrLf(a: string, b: string)
    requires a != [] && a[|a| - 1] == '\r' && b != [] && b[0] == '\n'
    ensures Normalize(a + b) == Normalize(a) + Normalize(b[1..])
    decreases |a|
  {
    if |a| == 1 {
      assert (a + b)[2..] == b[1..];
      assert Normalize(a) == ['\n'] + Normalize([]);
    } else if a[0] == '\r' && a[1] == '\n' {
      assert (a + b)[2..] == a[2..] + b;
      NormalizeCrLf(a[2..], b);
    } else {
      assert (a + b)[1..] == a[1..] + b;
      NormalizeCrLf(a[1..], b);
    }
  }

  lemma {:induction false} NormalizeCr()
    ensures Normalize(['\r']) == ['\n']
  {
    assert Normalize(['\r']) == ['\n'] + Normalize([]);
  }

  lemma {:induction false} NormalizeLastCr(a: string)
    requires a != [] && a[|a| - 1] == '\r'
    ensures Normalize(a) == Normalize(a[..|a| - 1]) + ['\n']
  {
    hide Normalize;
    NormalizeCr();
    NormalizeSplit(a[..|a| - 1], ['\r']);
    assert a[..|a| - 1] + ['\r'] == a;
  }

  // ----- finding frames in pieces -----

  lemma {:induction false} BoundaryStays(s: string, t: string)
    ensures Boundary(s).Some? ==> Boundary(s + t) == Boundary(s)
  {
    if |s| >= 2 && !(s[0] == '\n' && s[1] == '\n') {
      assert (s + t)[1..] == s[1..] + t;
      BoundaryStays(s[1..], t);
    }
  }

  lemma {:induction false} FramesInPieces(s: string, t: string)
    ensures Frames(s).done ==> Frames(s + t).done && Frames(s + t).events == Frames(s).events
    ensures !Frames(s).done ==>
      var more := Frames(Frames(s).rest + t);
      Frames(s + t) == more.(events := Frames(s).events + more.events)
    decreases |s|
  {
    hide Emit, Boundary;
    BoundaryStays(s, t);
    match Boundary(s)
    case None =>
      var p := Frames(s + t);
      assert p.(events := [] + p.events) == p;
    case Some(i) =>
      assert (s + t)[..i] == s[..i] && (s + t)[i + 2..] == s[i + 2..] + t;
      FramesInPieces(s[i + 2..], t);
      if Emit(s[..i]).Dispatch? {
        var e, tail := Emit(s[..i]).event, Frames(s[i + 2..]);
        assert forall more: seq<Event> :: [e] + (tail.events + more) == ([e] + tail.events) + more;
      }
  }

  // ----- the parser after some of the text -----

  /** The text so far without a final CR, which is held back. */
  function Settled(text: string): string {
    if text != [] && text[|text| - 1] == '\r' then text[..|text| - 1] else text
  }

  /** What the parser knows once `text` has been pushed. */
  ghost predicate Reached(s: State, events: seq<Event>, text: string) {
    var p := Frames(Normalize(Settled(text)));
    && s.finished == p.done && events == p.events
    && (!p.done ==> s.buffer == p.rest && s.pendingCr == EndsInCr(text))
  }

  function EndsInCr(text: string): bool {
    text != [] && text[|text| - 1] == '\r'
  }

  /** What a chunk adds to the normalised text, given whether a CR was held back before it. */
  function Added(held: bool, chunk: string): string {
    (if held then ['\n'] else [])
    + Normalize(Settled(if held && chunk != [] && chunk[0] == '\n' then chunk[1..] else chunk))
  }

  lemma {:induction false} AppendAdds(s: State, chunk: string)
    requires chunk != []
    ensures Append(s, chunk) == s.(buffer := s.buffer + Added(s.pendingCr, chunk), pendingCr := EndsInCr(chunk))
  {
    hide Normalize;
    var cut := s.pendingCr && chunk[0] == '\n';
    var body := if cut then chunk[1..] else chunk;
    assert body == [] || body[|body| - 1] == chunk[|chunk| - 1];
    assert EndsInCr(body) == EndsInCr(chunk);
    var held := if s.pendingCr then ['\n'] else [];
    assert s.buffer + held + Normalize(Settled(body)) == s.buffer + (held + Normalize(Settled(body)));
  }

  lemma {:induction false} SettledAfter(text: string, chunk: string)
    requires chunk != []
    ensures Normalize(Settled(text + chunk)) == Normalize(Settled(text)) + Added(EndsInCr(text), chunk)
  {
    hide Normalize;
    var kept := Settled(chunk);
    var before := Normalize(Settled(text));
    SettledConcat(text, chunk);
    if EndsInCr(text) {
      NormalizeLastCr(text);
      if chunk[0] == '\n' {
        assert Settled(chunk[1..]) == kept[1..];
        NormalizeCrLf(text, kept);
        assert before + ['\n'] + Normalize(kept[1..]) == before + (['\n'] + Normalize(kept[1..]));
      } else {
        NormalizeSplit(text, kept);
        assert before + ['\n'] + Normalize(kept) == before + (['\n'] + Normalize(kept));
      }
    } else {
      NormalizeSplit(text, kept);
      assert [] + Normalize(kept) == Normalize(kept);
    }
  }

  lemma {:induction false} SettledConcat(text: string, chunk: string)
    requires chunk != []
    ensures Settled(text + chunk) == text + Settled(chunk)
    ensures Settled(chunk) != [] ==> Settled(chunk)[0] == chunk[0]
    ensures chunk[0] == '\n' ==> Settled(chunk) != []
  {}

  lemma {:induction false} PushReaches(s: State, events: seq<Event>, text: string, chunk: string)
    requires Reached(s, events, text)
    ensures Reached(Push(s, chunk).0, events + Push(s, chunk).1, text + chunk)
  {
    if chunk == [] {
      assert text + chunk == text && events + [] == events;
    } else if s.finished {
      FinishedStays(text, chunk);
      assert events + [] == events;
    } else {
      LivePushReaches(s, events, text, chunk);
    }
  }

  lemma {:induction false} FinishedStays(text: string, chunk: string)
    requires chunk != [] && Frames(Normalize(Settled(text))).done
    ensures var p := Frames(Normalize(Settled(text + chunk)));
      p.done && p.events == Frames(Normalize(Settled(text))).events
  {
    hide Normalize, Frames, Added;
    SettledAfter(text, chunk);
    FramesInPieces(Normalize(Settled(text)), Added(EndsInCr(text), chunk));
  }

  lemma {:induction false} LivePushReaches(s: State, events: seq<Event>, text: string, chunk: string)
    requires Reached(s, events, text) && chunk != [] && !s.finished
    ensures Reached(Push(s, chunk).0, events + Push(s, chunk).1, text + chunk)
  {
    hide Normalize, Frames, Added, Append;
    SettledAfter(text, chunk);
    FramesInPieces(Normalize(Settled(text)), Added(EndsInCr(text), chunk));
    AppendAdds(s, chunk);
    assert EndsInCr(text + chunk) == EndsInCr(chunk);
  }

  lemma {:induction false} PushAllReaches(s: State, events: seq<Event>, text: string, chunks: seq<string>)
    requires Reached(s, events, text)
    ensures Reached(PushAll(s, chunks).0, events + PushAll(s, chunks).1, text + Concat(chunks))
    decreases |chunks|
  {
    hide Reached, Push;
    if chunks == [] {
      assert text + Concat(chunks) == text && events + [] == events;
    } else {
      PushReaches(s, events, text, chunks[0]);
      var (next, first) := Push(s, chunks[0]);
      PushAllReaches(next, events + first, text + chunks[0], chunks[1..]);
      var (last, more) := PushAll(next, chunks[1..]);
      assert events + first + more == events + (first + more);
      assert text + chunks[0] + Concat(chunks[1..]) == text + Concat(chunks);
    }
  }

  // ----- the end of the transport -----

  lemma {:induction false} BlankSplits(s: string)
    requires Blank(s)
    ensures forall i | 0 <= i < |Split(s)| :: Blank(Split(s)[i])
  {
    if s != [] {
      assert Blank(s[1..]);
      BlankSplits(s[1..]);
    }
  }

  lemma {:induction false} BlankLineIsIgnored(line: string)
    requires Blank(line)
    ensures ParseLine(line) == Ignored
  {
    if line != [] && line[0] != ':' {
      var colon := IndexOf(line, ':');
      assert colon > 0 && line[..colon][0] == line[0];
    }
  }

  lemma {:induction false} IgnoredLines(f: Frame, lines: seq<string>)
    requires forall i | 0 <= i < |lines| :: ParseLine(lines[i]) == Ignored
    ensures Gather(f, lines) == f
    decreases |lines|
  {
    if lines != [] { IgnoredLines(f, lines[1..]); }
  }

  /** The shortcut `flush` takes on blank leftovers loses nothing. */
  lemma {:induction false} BlankEmitsNothing(s: string)
    requires Blank(s)
    ensures Emit(s) == Nothing
  {
    BlankSplits(s);
    forall i | 0 <= i < |Split(s)|
      ensures ParseLine(Split(s)[i]) == Ignored
    {
      BlankLineIsIgnored(Split(s)[i]);
    }
    IgnoredLines(EMPTY_FRAME, Split(s));
  }

  lemma {:induction false} SplitTrailing(s: string)
    ensures Split(s + ['\n']) == Split(s) + [[]]
  {
    if s == [] {
      assert s + ['\n'] == ['\n'];
      assert ['\n'][1..] == [];
    } else {
      assert (s + ['\n'])[1..] == s[1..] + ['\n'];
      SplitTrailing(s[1..]);
    }
  }

  lemma {:induction false} GatherAppend(f: Frame, a: seq<string>, b: seq<string>)
    ensures Gather(f, a + b) == Gather(Gather(f, a), b)
    decreases |a|
  {
    if a == [] {
      assert a + b == b;
    } else {
      assert (a + b)[1..] == a[1..] + b;
      GatherAppend(AddField(f, ParseLine(a[0])), a[1..], b);
    }
  }

  lemma {:induction false} EmitTrailing(s: string)
    ensures Emit(s + ['\n']) == Emit(s)
  {
    SplitTrailing(s);
    var f := Gather(EMPTY_FRAME, Split(s));
    GatherAppend(EMPTY_FRAME, Split(s), [[]]);
    IgnoredLines(f, [[]]);
  }

  /** One more newline can only complete the blank line that the text already ends with half of. */
  lemma {:induction false} BoundaryAtEnd(s: string)
    requires Boundary(s).None?
    ensures Boundary(s + ['\n']) ==
      if s != [] && s[|s| - 1] == '\n' then Some(|s| - 1) else None
  {
    if |s| == 1 {
      assert (s + ['\n'])[1..] == ['\n'];
    } else if |s| > 1 {
      assert (s + ['\n'])[1..] == s[1..] + ['\n'];
      BoundaryAtEnd(s[1..]);
    }
  }

  lemma {:induction false} RestHasNoBoundary(s: string)
    ensures !Frames(s).done ==> Boundary(Frames(s).rest).None?
    decreases |s|
  {
    hide Boundary, Emit;
    match Boundary(s)
    case None =>
    case Some(i) => RestHasNoBoundary(s[i + 2..]);
  }

  /** Flushing a held-back CR dispatches what reading it as a line end would have. */
  lemma {:induction false} FlushHeldCr(rest: string)
    requires Boundary(rest).None?
    ensures var p := Frames(rest + ['\n']);
      match Emit(rest + ['\n'])
      case Nothing => p.events == [] && !p.done && Emit(p.rest) == Nothing
      case Stop => p.events == [] && (p.done || Emit(p.rest) == Stop)
      case Dispatch(e) =>
        || (p.events == [e] && !p.done && Emit(p.rest) == Nothing)
        || (p.events == [] && !p.done && Emit(p.rest) == Dispatch(e))
  {
    BoundaryAtEnd(rest);
    if rest != [] && rest[|rest| - 1] == '\n' {
      var i := |rest| - 1;
      var frame := rest[..i];
      assert (rest + ['\n'])[..i] == frame && (rest + ['\n'])[i + 2..] == [];
      assert frame + ['\n'] == rest;
      EmitTrailing(frame);
      EmitTrailing(rest);
      assert Frames([]) == Parsed([], false, []);
      BlankEmitsNothing([]);
    }
  }

  lemma {:induction false} FlushReaches(s: State, events: seq<Event>, text: string)
    requires Reached(s, events, text)
    ensures var (last, more) := Flush(s);
      events + more == Whole(text).events && last.finished == Whole(text).done
  {
    hide Frames, Emit, Normalize, Boundary;
    var p := Frames(Normalize(Settled(text)));
    RestHasNoBoundary(Normalize(Settled(text)));
    if s.finished {
      assert events + [] == events;
      if text != [] && text[|text| - 1] == '\r' {
        NormalizeLastCr(text);
        FramesInPieces(Normalize(Settled(text)), ['\n']);
      }
    } else {
      var rest := if s.pendingCr then s.buffer + ['\n'] else s.buffer;
      if Blank(rest) { BlankEmitsNothing(rest); }
      assert events + [] == events;
      if s.pendingCr {
        NormalizeLastCr(text);
        FramesInPieces(Normalize(Settled(text)), ['\n']);
        FlushHeldCr(s.buffer);
      }
    }
  }

  /**
   * However a text is cut into chunks, the events of the pushes and of the final flush, and
   * the final `done` flag, are those of parsing the text whole.
   */
  lemma {:induction false} ChunkInvariance(chunks: seq<string>)
    ensures Stream(chunks).1 == Whole(Concat(chunks)).events
    ensures Stream(chunks).0.finished == Whole(Concat(chunks)).done
  {
    assert Reached(START, [], []);
    PushAllReaches(START, [], [], chunks);
    var (s, events) := PushAll(START, chunks);
    assert [] + events == events && [] + Concat(chunks) == Concat(chunks);
    FlushReaches(s, events, Concat(chunks));
  }
}
