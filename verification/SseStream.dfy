/** The parser object, the daemon's frame printer, and the round trip between them. */
module SseStream {
  import opened Prelude
  import opened Sse

  lemma {:induction false} FramesUnfold(s: string)
    ensures Boundary(s).None? ==> Frames(s) == Parsed([], false, s)
    ensures Boundary(s).Some? ==>
      var i := Boundary(s).value;
      match Emit(s[..i])
      case Stop => Frames(s) == Parsed([], true, s[i + 2..])
      case Nothing => Frames(s) == Frames(s[i + 2..])
      case Dispatch(e) => Frames(s) == Frames(s[i + 2..]).(events := [e] + Frames(s[i + 2..]).events)
  {}

  class SseParser {
    var buffer: string
    var pendingCr: bool
    var finished: bool

    function Value(): State
      reads this
    {
      State(buffer, pendingCr, finished)
    }

    constructor ()
      ensures Value() == START
    {
      buffer, pendingCr, finished := [], false, false;
    }

    method Push(chunk: string) returns (events: seq<Event>)
      modifies this
      ensures (Value(), events) == Sse.Push(old(Value()), chunk)
    {
      hide Frames, Emit, Boundary, Sse.Append;
      events := [];
      if finished || chunk == [] { return; }
      Append(chunk);
      ghost var appended := Value();
      assert events + Frames(buffer).events == Frames(buffer).events;
      while true
        invariant !finished && pendingCr == appended.pendingCr
        invariant Frames(appended.buffer) ==
          Parsed(events + Frames(buffer).events, Frames(buffer).done, Frames(buffer).rest)
        decreases |buffer|
      {
        FramesUnfold(buffer);
        assert events + [] == events;
        var boundary := Boundary(buffer);
        if boundary.None? { break; }
        var frame := buffer[..boundary.value];
        ghost var before := buffer;
        buffer := buffer[boundary.value + 2..];
        match Emit(frame)
        case Stop =>
          finished := true;
          return;
        case Nothing =>
        case Dispatch(e) =>
          assert events + ([e] + Frames(buffer).events) == events + [e] + Frames(buffer).events;
          events := events + [e];
      }
    }

    method Append(chunk: string)
      requires chunk != []
      modifies this
      ensures Value() == Sse.Append(old(Value()), chunk) && finished == old(finished)
    {
      var text := chunk;
      if pendingCr {
        pendingCr := false;
        buffer := buffer + ['\n'];
        if text[0] == '\n' { text := text[1..]; }
      }
      if text != [] && text[|text| - 1] == '\r' {
        pendingCr := true;
        text := text[..|text| - 1];
      }
      buffer := buffer + Normalize(text);
    }

    method Flush() returns (events: seq<Event>)
      modifies this
      ensures (Value(), events) == Sse.Flush(old(Value()))
      ensures !old(finished) ==> buffer == [] && !pendingCr
    {
      events := [];
      if finished { return; }
      if pendingCr {
        buffer := buffer + ['\n'];
        pendingCr := false;
      }
      var rest := buffer;
      buffer := [];
      if Blank(rest) { return; }
      match Emit(rest)
      case Nothing =>
      case Stop => finished := true;
      case Dispatch(e) => events := [e];
    }
  }

  // ----- the printer -----

  function DataFrame(payload: string): string {
    "data: " + payload + "\n\n"
  }

  function ErrorFrame(body: string): string {
    "event: error" + "\n" + ("data: " + body) + "\n\n"
  }

  function Printed(payloads: seq<string>): string {
    if payloads == [] then [] else DataFrame(payloads[0]) + Printed(payloads[1..])
  }

  /**
   * Everything one completion writes: its chunks, then the sentinel, with an error frame
   * before it if the provider failed. `endsBefore` is the chunk at whose arrival the response
   * is found already ended, after which nothing more is written.
   */
  function Streamed(payloads: seq<string>, failure: Option<string>, endsBefore: Option<nat>): string {
    if endsBefore.Some? && endsBefore.value <= |payloads| then
      Printed(payloads[..endsBefore.value])
    else
      Printed(payloads)
      + (if failure.Some? then ErrorFrame(failure.value) else "")
      + DataFrame(DONE)
  }

  class Response {
    var output: string

    constructor ()
      ensures output == ""
    {
      output := "";
    }

    method Write(text: string)
      modifies this
      ensures output == old(output) + text
    {
      output := output + text;
    }

    method WriteSseData(data: string)
      modifies this
      ensures output == old(output) + DataFrame(data)
    {
      Write("data: " + data + "\n\n");
    }

    method StreamCompletion(payloads: seq<string>, failure: Option<string>, endsBefore: Option<nat>)
      returns (wroteAny: bool)
      modifies this
      ensures output == old(output) + Streamed(payloads, failure, endsBefore)
      ensures wroteAny <==> payloads != [] && endsBefore != Some(0)
    {
      hide Printed, DataFrame, ErrorFrame;
      wroteAny := false;
      var i := 0;
      PrintedNone();
      while i < |payloads|
        invariant 0 <= i <= |payloads|
        invariant endsBefore.Some? ==> i <= endsBefore.value
        invariant output == old(output) + Printed(payloads[..i])
        invariant wroteAny <==> i > 0
      {
        if endsBefore == Some(i) { return; }
        WriteSseData(payloads[i]);
        PrintedAppend(payloads[..i], payloads[i]);
        assert payloads[..i] + [payloads[i]] == payloads[..i + 1];
        wroteAny := true;
        i := i + 1;
      }
      assert payloads[..i] == payloads;
      if endsBefore == Some(i) { return; }
      if failure.Some? { Write(ErrorFrame(failure.value)); }
      WriteSseData(DONE);
    }
  }

  lemma {:induction false} PrintedNone()
    ensures Printed([]) == []
  {}

  lemma {:induction false} PrintedAppend(payloads: seq<string>, last: string)
    ensures Printed(payloads + [last]) == Printed(payloads) + DataFrame(last)
  {
    if payloads == [] {
      assert payloads + [last] == [last] && [last][1..] == [];
      assert Printed([]) == [];
    } else {
      assert (payloads + [last])[1..] == payloads[1..] + [last];
      PrintedAppend(payloads[1..], last);
    }
  }

  // ----- reading one printed frame -----

  ghost predicate OneLine(s: string) {
    '\n' !in s && '\r' !in s
  }

  lemma {:induction false} NormalizeKeeps(s: string)
    requires '\r' !in s
    ensures Normalize(s) == s
  {
    if s != [] { NormalizeKeeps(s[1..]); }
  }

  lemma {:induction false} SplitLine(line: string, rest: string)
    requires '\n' !in line
    ensures Split(line) == [line]
    ensures Split(line + ['\n'] + rest) == [line] + Split(rest)
  {
    if line == [] {
      assert line + ['\n'] + rest == ['\n'] + rest && (['\n'] + rest)[1..] == rest;
    } else {
      assert (line + ['\n'] + rest)[1..] == line[1..] + ['\n'] + rest;
      SplitLine(line[1..], rest);
      assert [line[0]] + line[1..] == line;
    }
  }

  /** The first blank line after a frame without one is the one that ends it. */
  lemma {:induction false} BoundaryAfter(frame: string, rest: string)
    requires Boundary(frame).None? && (frame == [] || frame[|frame| - 1] != '\n')
    ensures Boundary(frame + "\n\n" + rest) == Some(|frame|)
  {
    if frame != [] {
      assert (frame + "\n\n" + rest)[1..] == frame[1..] + "\n\n" + rest;
      if |frame| > 1 {
        BoundaryAfter(frame[1..], rest);
      } else {
        BoundaryAfter([], rest);
        assert frame[1..] == [];
      }
    }
  }

  lemma {:induction false} LineHasNoBoundary(line: string)
    requires '\n' !in line
    ensures Boundary(line).None?
  {
    if |line| > 1 { LineHasNoBoundary(line[1..]); }
  }

  lemma {:induction false} TwoLinesHaveNoBoundary(a: string, b: string)
    requires '\n' !in a && '\n' !in b && b != []
    ensures Boundary(a + ['\n'] + b).None?
  {
    if a == [] {
      assert (a + ['\n'] + b)[1..] == b;
      LineHasNoBoundary(b);
    } else {
      assert (a + ['\n'] + b)[1..] == a[1..] + ['\n'] + b;
      TwoLinesHaveNoBoundary(a[1..], b);
    }
  }

  lemma {:induction false} FirstColon(name: string, rest: string)
    requires ':' !in name
    ensures IndexOf(name + ":" + rest, ':') == |name|
  {
    if name != [] {
      assert (name + ":" + rest)[1..] == name[1..] + ":" + rest;
      FirstColon(name[1..], rest);
    }
  }

  lemma {:induction false} DataLine(payload: string)
    ensures ParseLine("data: " + payload) == Data(payload)
  {
    FirstColon("data", " " + payload);
    var line := "data: " + payload;
    assert line == "data" + ":" + (" " + payload);
    assert line[..4] == "data" && line[5..] == " " + payload;
  }

  lemma {:induction false} EventLine(name: string)
    ensures ParseLine("event: " + name) == Name(name)
  {
    FirstColon("event", " " + name);
    var line := "event: " + name;
    assert line == "event" + ":" + (" " + name);
    assert line[..5] == "event" && line[6..] == " " + name;
  }

  lemma {:induction false} EmitData(payload: string)
    requires '\n' !in payload
    ensures Emit("data: " + payload) ==
      if payload == DONE then Stop else Dispatch(Event(payload, None, None))
  {
    var line := "data: " + payload;
    SplitLine(line, []);
    DataLine(payload);
    assert [line][1..] == [];
    assert Gather(EMPTY_FRAME, [line]) == Gather(AddField(EMPTY_FRAME, Data(payload)), []);
    assert [] + [payload] == [payload];
  }

  lemma {:induction false} GatherTwo(a: string, b: string)
    ensures Gather(EMPTY_FRAME, [a, b]) == AddField(AddField(EMPTY_FRAME, ParseLine(a)), ParseLine(b))
  {
    hide ParseLine, AddField;
    var f := AddField(EMPTY_FRAME, ParseLine(a));
    assert [a, b][1..] == [b] && [b][1..] == [];
    assert Gather(f, [b]) == Gather(AddField(f, ParseLine(b)), []);
  }

  lemma {:induction false} SplitTwo(a: string, b: string)
    requires '\n' !in a && '\n' !in b
    ensures Split(a + ['\n'] + b) == [a, b]
  {
    SplitLine(a, b);
    SplitLine(b, []);
  }

  lemma {:induction false} EmitNamed(a: string, b: string, name: string, body: string)
    requires '\n' !in a && '\n' !in b && body != DONE
    requires ParseLine(a) == Name(name) && ParseLine(b) == Data(body)
    ensures Emit(a + "\n" + b) == Dispatch(Event(body, Some(name), None))
  {
    SplitTwo(a, b);
    GatherTwo(a, b);
    hide ParseLine, Split, Gather;
    assert [] + [body] == [body];
  }

  lemma {:induction false} EmitError(body: string)
    requires '\n' !in body && body != DONE
    ensures Emit("event: error" + "\n" + ("data: " + body)) == Dispatch(Event(body, Some("error"), None))
  {
    hide ParseLine, Emit;
    EventLine("error");
    assert "event: " + "error" == "event: error";
    DataLine(body);
    EmitNamed("event: error", "data: " + body, "error", body);
  }

  lemma {:induction false} ReadFrame(frame: string, rest: string)
    requires Boundary(frame).None? && (frame == [] || frame[|frame| - 1] != '\n')
    ensures Frames(frame + "\n\n" + rest) ==
      match Emit(frame)
      case Stop => Parsed([], true, rest)
      case Nothing => Frames(rest)
      case Dispatch(e) => Frames(rest).(events := [e] + Frames(rest).events)
  {
    BoundaryAfter(frame, rest);
    var s := frame + "\n\n" + rest;
    assert s[..|frame|] == frame && s[|frame| + 2..] == rest;
  }

  lemma {:induction false} ReadData(payload: string, rest: string)
    requires '\n' !in payload
    ensures Frames(DataFrame(payload) + rest) ==
      if payload == DONE then Parsed([], true, rest)
      else Frames(rest).(events := [Event(payload, None, None)] + Frames(rest).events)
  {
    var frame := "data: " + payload;
    assert DataFrame(payload) + rest == frame + "\n\n" + rest;
    assert frame[|frame| - 1] != '\n' by {
      if payload != [] { assert frame[|frame| - 1] == payload[|payload| - 1]; }
    }
    LineHasNoBoundary(frame);
    EmitData(payload);
    ReadFrame(frame, rest);
  }

  lemma {:induction false} ReadError(body: string, rest: string)
    requires '\n' !in body && body != DONE
    ensures Frames(ErrorFrame(body) + rest) ==
      Frames(rest).(events := [Event(body, Some("error"), None)] + Frames(rest).events)
  {
    var frame := "event: error" + "\n" + ("data: " + body);
    assert ErrorFrame(body) + rest == frame + "\n\n" + rest;
    TwoLinesHaveNoBoundary("event: error", "data: " + body);
    assert frame[|frame| - 1] != '\n' by {
      if body != [] { assert frame[|frame| - 1] == body[|body| - 1]; }
    }
    EmitError(body);
    ReadFrame(frame, rest);
  }

  // ----- the round trip -----

  ghost predicate Payloads(ps: seq<string>) {
    forall i | 0 <= i < |ps| :: OneLine(ps[i]) && ps[i] != DONE
  }

  function Plain(ps: seq<string>): (events: seq<Event>) {
    if ps == [] then [] else [Event(ps[0], None, None)] + Plain(ps[1..])
  }

  lemma {:induction false} ReadPrinted(ps: seq<string>, rest: string)
    requires Payloads(ps)
    ensures Frames(Printed(ps) + rest) == Frames(rest).(events := Plain(ps) + Frames(rest).events)
  {
    hide Frames, DataFrame;
    if ps == [] {
      assert [] + rest == rest && [] + Frames(rest).events == Frames(rest).events;
    } else {
      ReadPrinted(ps[1..], rest);
      var tail := Printed(ps[1..]) + rest;
      assert Printed(ps) + rest == DataFrame(ps[0]) + tail;
      ReadData(ps[0], tail);
      var first := [Event(ps[0], None, None)];
      assert first + (Plain(ps[1..]) + Frames(rest).events) == Plain(ps) + Frames(rest).events;
    }
  }

  lemma {:induction false} PrintedHasNoCr(ps: seq<string>)
    requires Payloads(ps)
    ensures '\r' !in Printed(ps)
  {
    if ps != [] { PrintedHasNoCr(ps[1..]); }
  }

  ghost function Received(ps: seq<string>, failure: Option<string>): seq<Event> {
    Plain(ps) + (if failure.Some? then [Event(failure.value, Some("error"), None)] else [])
  }

  lemma {:induction false} NormalizePrefix(a: string, b: string)
    requires '\r' !in a
    ensures Normalize(a + b) == a + Normalize(b)
  {
    NormalizeSplit(a, b);
    NormalizeKeeps(a);
  }

  lemma {:induction false} StreamedHasNoCr(ps: seq<string>, failure: Option<string>)
    requires Payloads(ps) && (failure.Some? ==> OneLine(failure.value))
    ensures '\r' !in Streamed(ps, failure, None)
  {
    PrintedHasNoCr(ps);
  }

  lemma {:induction false} ReadStreamed(ps: seq<string>, failure: Option<string>, rest: string)
    requires Payloads(ps)
    requires failure.Some? ==> OneLine(failure.value) && failure.value != DONE
    ensures Frames(Streamed(ps, failure, None) + rest) == Parsed(Received(ps, failure), true, rest)
  {
    hide Frames, DataFrame, ErrorFrame;
    var tail := DataFrame(DONE) + rest;
    ReadData(DONE, rest);
    match failure {
      case None =>
        assert Streamed(ps, failure, None) + rest == Printed(ps) + tail;
        ReadPrinted(ps, tail);
        assert Plain(ps) + [] == Plain(ps);
      case Some(body) =>
        assert Streamed(ps, failure, None) + rest == Printed(ps) + (ErrorFrame(body) + tail);
        ReadError(body, tail);
        assert [Event(body, Some("error"), None)] + [] == [Event(body, Some("error"), None)];
        ReadPrinted(ps, ErrorFrame(body) + tail);
    }
  }

  /**
   * What the daemon prints for any payloads without line ends, followed by anything at all and
   * cut into any chunks, parses back to exactly those payloads, with the sentinel seen; an
   * in-band failure arrives as one last event named "error".
   */
  lemma {:induction false} PrintThenParse(
      ps: seq<string>, failure: Option<string>, trailing: string, chunks: seq<string>)
    requires Payloads(ps)
    requires failure.Some? ==> OneLine(failure.value) && failure.value != DONE
    requires Concat(chunks) == Streamed(ps, failure, None) + trailing
    ensures Stream(chunks).1 == Received(ps, failure)
    ensures Stream(chunks).0.finished
  {
    ChunkInvariance(chunks);
    StreamedHasNoCr(ps, failure);
    NormalizePrefix(Streamed(ps, failure, None), trailing);
    ReadStreamed(ps, failure, Normalize(trailing));
  }
}
