// The widget's incremental reader of a server-sent event stream.
//
// Text arrives in chunks cut anywhere.  The reader keeps the unterminated last line in a buffer
// and reports one call per data line, tagged with the event name seen before it.
module SseReader {
  import opened Text

  // ---- lines ----

  // One handleEvent call.
  datatype Call = Call(event: string, data: string)

  datatype Progress = Progress(currentEvent: string, calls: seq<Call>)

  const EVENT := "event: "
  const DATA := "data: "

  function OnLine(p: Progress, line: string): Progress {
    if EVENT <= line then p.(currentEvent := Trim(line[7..]))
    else if DATA <= line then Progress("", p.calls + [Call(p.currentEvent, line[6..])])
    else if Trim(line) == "" then p.(currentEvent := "")
    else p
  }

  function OnLines(p: Progress, lines: seq<string>): Progress
    decreases |lines|
  {
    if lines == [] then p else OnLines(OnLine(p, lines[0]), lines[1..])
  }

  lemma {:induction false} OnLinesAppend(p: Progress, a: seq<string>, b: seq<string>)
    ensures OnLines(p, a + b) == OnLines(OnLines(p, a), b)
    decreases |a|
  {
    if a == [] {
      assert a + b == b;
    } else {
      assert (a + b)[0] == a[0] && (a + b)[1..] == a[1..] + b;
      OnLinesAppend(OnLine(p, a[0]), a[1..], b);
    }
  }

  // What one pass over the complete lines of a text reports.
  function OnePass(text: string): Progress { OnLines(Progress("", []), Complete(text)) }

  // ---- the reader ----

  class Reader {
    var buffer: string
    var currentEvent: string
    var calls: seq<Call>

    // The state the reader is in after any chunking of `text`.
    ghost predicate HasRead(text: string)
      reads this
    {
      buffer == Tail(text) && Progress(currentEvent, calls) == OnePass(text)
    }

    constructor ()
      ensures HasRead("")
    {
      buffer, currentEvent, calls := "", "", [];
    }

    method Feed(chunk: string, ghost before: string)
      requires HasRead(before)
      modifies this
      ensures HasRead(before + chunk)
    {
      FeedSplits(before, chunk);
      OnLinesAppend(Progress("", []), Complete(before), Complete(Tail(before) + chunk));
      buffer := buffer + chunk;
      var lines := Split(buffer);
      ghost var start := Progress(currentEvent, calls);
      buffer := lines[|lines| - 1];
      lines := lines[..|lines| - 1];
      var i := 0;
      assert lines[0..] == lines;
      while i < |lines|
        invariant 0 <= i <= |lines|
        invariant OnLines(Progress(currentEvent, calls), lines[i..]) == OnLines(start, lines)
        invariant buffer == Tail(Tail(before) + chunk)
      {
        assert lines[i..][0] == lines[i] && lines[i..][1..] == lines[i + 1..];
        var line := lines[i];
        i := i + 1;
        if EVENT <= line {
          currentEvent := Trim(line[7..]);
          continue;
        }
        if DATA <= line {
          calls := calls + [Call(currentEvent, line[6..])];
          currentEvent := "";
          continue;
        }
        if Trim(line) == "" {
          currentEvent := "";
        }
      }
    }

    // However the text is cut into chunks, the calls are those of one pass over the whole text
    // and the buffer is its unterminated last line.
    method ReadAll(chunks: seq<string>)
      requires HasRead("")
      modifies this
      ensures HasRead(Concat(chunks))
    {
      var i := 0;
      ghost var text := "";
      while i < |chunks|
        invariant 0 <= i <= |chunks|
        invariant text + Concat(chunks[i..]) == Concat(chunks)
        invariant HasRead(text)
      {
        Feed(chunks[i], text);
        text := text + chunks[i];
        assert chunks[i..][1..] == chunks[i + 1..];
        i := i + 1;
      }
      assert text == Concat(chunks);
    }
  }

  function Concat(chunks: seq<string>): string {
    if chunks == [] then "" else chunks[0] + Concat(chunks[1..])
  }

  // ---- the engine's writer ----

  // The engine writes each event as an event line, a data line and a blank line.
  function Write(events: seq<Call>): string {
    if events == [] then ""
    else EVENT + events[0].event + "\n" + DATA + events[0].data + "\n\n" + Write(events[1..])
  }

  // Before the first event it sends a comment.
  const GREETING := ": ok"

  function Stream(events: seq<Call>): string { GREETING + "\n\n" + Write(events) }

  ghost predicate OneLine(events: seq<Call>) {
    forall e :: e in events ==> '\n' !in e.event && '\n' !in e.data
  }

  function Trimmed(events: seq<Call>): seq<Call> {
    seq(|events|, i requires 0 <= i < |events| => Call(Trim(events[i].event), events[i].data))
  }

  lemma ThreePieces(a: string, b: string, rest: string)
    requires '\n' !in a && '\n' !in b
    ensures Split(a + "\n" + b + "\n\n" + rest) == [a, b, ""] + Split(rest)
  {
    SplitLine("", rest);
    assert "" + "\n" + rest == "\n" + rest;
    SplitLine(b, "\n" + rest);
    assert b + "\n" + ("\n" + rest) == b + "\n\n" + rest;
    SplitLine(a, b + "\n\n" + rest);
    assert a + "\n" + (b + "\n\n" + rest) == a + "\n" + b + "\n\n" + rest;
  }

  lemma {:induction false} WriteLines(events: seq<Call>)
    requires OneLine(events)
    ensures Split(Write(events)) == Lines(events) + [""]
  {
    if events != [] {
      var a, b, rest := EVENT + events[0].event, DATA + events[0].data, events[1..];
      WriteLines(rest);
      ThreePieces(a, b, Write(rest));
      WriteFirst(events);
    }
  }

  lemma WriteFirst(events: seq<Call>)
    requires events != []
    ensures var a, b := EVENT + events[0].event, DATA + events[0].data;
            Write(events) == a + "\n" + b + "\n\n" + Write(events[1..])
  {
    var e, w := events[0], Write(events[1..]);
    Regroup(EVENT + e.event + "\n", DATA, e.data, "\n\n" , w);
  }

  lemma Regroup(a: string, b: string, c: string, d: string, w: string)
    ensures a + b + c + d + w == a + (b + c) + d + w
  {
    assert a + b + c == a + (b + c);
  }

  function Lines(events: seq<Call>): seq<string> {
    if events == [] then [] else [EVENT + events[0].event, DATA + events[0].data, ""] + Lines(events[1..])
  }

  lemma {:induction false} LinesReport(p: Progress, events: seq<Call>)
    requires p.currentEvent == ""
    ensures OnLines(p, Lines(events)) == Progress("", p.calls + Trimmed(events))
    decreases |events|
  {
    if events == [] {
      assert p.calls + Trimmed(events) == p.calls;
    } else {
      var e, rest := events[0], events[1..];
      OnLinesAppend(p, [EVENT + e.event, DATA + e.data, ""], Lines(rest));
      var p1 := OnLine(p, EVENT + e.event);
      assert (EVENT + e.event)[7..] == e.event && p1 == Progress(Trim(e.event), p.calls);
      var p2 := OnLine(p1, DATA + e.data);
      assert (DATA + e.data)[0] != EVENT[0] && (DATA + e.data)[6..] == e.data;
      assert p2 == Progress("", p.calls + [Call(Trim(e.event), e.data)]);
      ThreeLines(p, EVENT + e.event, DATA + e.data, "");
      LinesReport(p2, rest);
      assert p.calls + Trimmed(events) == p.calls + [Call(Trim(e.event), e.data)] + Trimmed(rest);
    }
  }

  lemma ThreeLines(p: Progress, a: string, b: string, c: string)
    ensures OnLines(p, [a, b, c]) == OnLine(OnLine(OnLine(p, a), b), c)
  {
    assert [a, b, c][1..] == [b, c] && [b, c][1..] == [c] && [c][1..] == [];
    assert OnLines(p, [a, b, c]) == OnLines(OnLine(p, a), [b, c]);
    assert OnLines(OnLine(p, a), [b, c]) == OnLines(OnLine(OnLine(p, a), b), [c]);
  }

  lemma StreamLines(events: seq<Call>)
    requires OneLine(events)
    ensures Split(Stream(events)) == [GREETING, ""] + Lines(events) + [""]
  {
    var w := Write(events);
    WriteLines(events);
    SplitLine("", w);
    assert "" + "\n" + w == "\n" + w;
    SplitLine(GREETING, "\n" + w);
    assert GREETING + "\n" + ("\n" + w) == GREETING + "\n\n" + w;
  }

  lemma GreetingIgnored(p: Progress)
    requires p.currentEvent == ""
    ensures OnLines(p, [GREETING, ""]) == p
  {
    assert GREETING[0] != EVENT[0] && GREETING[0] != DATA[0] && !IsSpace(GREETING[0]);
    assert OnLine(p, GREETING) == p by { NotBlank(GREETING); }
    assert [GREETING, ""][1..] == [""] && [""][1..] == [];
    assert OnLines(p, [GREETING, ""]) == OnLines(p, [""]);
    assert OnLine(p, "") == p;
  }

  lemma NotBlank(s: string)
    requires s != "" && !IsSpace(s[0])
    ensures Trim(s) != ""
  {
    assert TrimStart(s) == s;
    KeepsFirst(s);
  }

  lemma {:induction false} KeepsFirst(s: string)
    requires s != "" && !IsSpace(s[0])
    ensures TrimEnd(s) != ""
    decreases |s|
  {
    if IsSpace(s[|s| - 1]) { KeepsFirst(s[..|s| - 1]); }
  }

  lemma ReadsBack(events: seq<Call>)
    requires OneLine(events)
    ensures OnePass(Stream(events)) == Progress("", Trimmed(events)) && Tail(Stream(events)) == ""
  {
    var start := Progress("", []);
    StreamLines(events);
    assert Complete(Stream(events)) == [GREETING, ""] + Lines(events);
    OnLinesAppend(start, [GREETING, ""], Lines(events));
    GreetingIgnored(start);
    LinesReport(start, events);
    assert [] + Trimmed(events) == Trimmed(events);
  }

  lemma TrimmedAlready(events: seq<Call>)
    ensures Trimmed(events) == events <==> forall e :: e in events ==> Trim(e.event) == e.event
  {
    if Trimmed(events) == events {
      forall e | e in events ensures Trim(e.event) == e.event {
        var i :| 0 <= i < |events| && events[i] == e;
        assert Trimmed(events)[i] == events[i];
      }
    }
  }

  // Reading what the engine sends reports exactly the written events, with event names trimmed;
  // so the round trip is exact if and only if no event name has outer whitespace.
  lemma WriteThenRead(events: seq<Call>)
    requires OneLine(events)
    ensures OnePass(Stream(events)) == Progress("", Trimmed(events)) && Tail(Stream(events)) == ""
    ensures OnePass(Stream(events)).calls == events <==> forall e :: e in events ==> Trim(e.event) == e.event
  {
    ReadsBack(events);
    TrimmedAlready(events);
  }
}
