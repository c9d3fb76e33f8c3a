// The line rules of section 9.2 of the WHATWG HTML standard on streams whose lines end with a
// newline, and exactly when the widget's reader reports the same events.
module StandardSse {
  import opened Text
  import opened SseReader

  // ---- the standard's rules ----

  function Colon(line: string): (i: nat)
    ensures i <= |line|
    ensures forall j :: 0 <= j < i ==> line[j] != ':'
    ensures i < |line| ==> line[i] == ':'
  {
    if line == "" || line[0] == ':' then 0 else 1 + Colon(line[1..])
  }

  function FieldName(line: string): string { line[..Colon(line)] }

  // What follows the colon, without one leading space.
  function FieldValue(line: string): string {
    if Colon(line) == |line| then ""
    else
      var rest := line[Colon(line) + 1..];
      if rest != "" && rest[0] == ' ' then rest[1..] else rest
  }

  // A field is a name, a colon and a value, with a space between them or not; a line without a colon is
  // a name with the empty value.
  lemma FieldsAre(name: string, value: string)
    requires ':' !in name
    ensures FieldName(name + ":" + " " + value) == name && FieldValue(name + ":" + " " + value) == value
    ensures !(" " <= value) ==> FieldName(name + ":" + value) == name && FieldValue(name + ":" + value) == value
    ensures FieldName(name) == name && FieldValue(name) == ""
  {
    ColonBehind(name, " " + value);
    ColonBehind(name, value);
    assert (":" + (" " + value))[1..] == " " + value && (" " + value)[1..] == value;
    assert name + ":" + " " + value == name + ":" + (" " + value);
    assert (name + ":" + value)[|name| + 1..] == value;
    assert (name + ":" + (" " + value))[|name| + 1..] == " " + value;
  }

  lemma ColonBehind(name: string, rest: string)
    requires ':' !in name
    ensures Colon(name + ":" + rest) == |name| == Colon(name) && (name + ":" + rest)[..|name|] == name
  {
    var line := name + ":" + rest;
    assert forall j :: 0 <= j < |name| ==> line[j] == name[j] && name[j] in name;
    assert line[|name|] == ':';
  }

  // The event type buffer, the data lines so far, and what was dispatched.  An event without a type
  // keeps the empty one here.
  datatype Buffers = Buffers(event: string, data: seq<string>, calls: seq<Call>)

  function Dispatched(b: Buffers): seq<Call> {
    if b.data == [] then [] else [Call(b.event, JoinBy(b.data, "\n"))]
  }

  function OnStandard(b: Buffers, line: string): Buffers {
    if line == "" then Buffers("", [], b.calls + Dispatched(b))
    else if FieldName(line) == "event" then b.(event := FieldValue(line))
    else if FieldName(line) == "data" then b.(data := b.data + [FieldValue(line)])
    else b
  }

  function Standard(b: Buffers, lines: seq<string>): Buffers {
    if lines == [] then b else OnStandard(Standard(b, lines[..|lines| - 1]), lines[|lines| - 1])
  }

  const START := Buffers("", [], [])

  // What follows the last empty line is never dispatched.
  function StandardCalls(lines: seq<string>): seq<Call> { Standard(START, lines).calls }

  function ReaderAfter(lines: seq<string>): Progress { OnLines(Progress("", []), lines) }

  // ---- one line more ----

  lemma ReaderSnoc(p: Progress, lines: seq<string>, line: string)
    ensures OnLines(p, lines + [line]) == OnLine(OnLines(p, lines), line)
  {
    OnLinesAppend(p, lines, [line]);
    assert [line][1..] == [];
  }

  lemma StandardSnoc(b: Buffers, lines: seq<string>, line: string)
    ensures Standard(b, lines + [line]) == OnStandard(Standard(b, lines), line)
  {
    assert (lines + [line])[..|lines|] == lines;
  }

  predicate IsData(line: string) { line != "" && FieldName(line) == "data" }

  lemma PrefixedData(line: string)
    ensures DATA <= line ==> IsData(line) && FieldValue(line) == line[6..]
    ensures DATA <= line ==> !(EVENT <= line)
  {
    if DATA <= line {
      assert line[..6] == DATA && line[0] == 'd' && line[4] == ':' && line[5] == ' ';
      assert forall j :: 0 <= j < 4 ==> line[j] == DATA[j] != ':';
      assert Colon(line) == 4;
      assert line[..4] == "data" by { assert line[..4] == line[..6][..4]; }
      assert line[5..][1..] == line[6..];
    }
  }

  // ---- one event: the lines between two empty ones ----

  predicate Block(block: seq<string>) {
    forall l :: l in block ==> l != "" && '\n' !in l
  }

  // The event type by the standard: the value of the last event field.
  function TypeSent(lines: seq<string>): string {
    if lines == [] then ""
    else
      var line := lines[|lines| - 1];
      if FieldName(line) == "event" then FieldValue(line) else TypeSent(lines[..|lines| - 1])
  }

  // The event type the reader holds: it takes it from lines that start with "event: ", trims it, and
  // forgets it at a line of white space.
  function TypeRead(lines: seq<string>): string {
    if lines == [] then ""
    else
      var line := lines[|lines| - 1];
      if EVENT <= line then Trim(line[7..])
      else if Trim(line) == "" then ""
      else TypeRead(lines[..|lines| - 1])
  }

  // The block has at most one data line, that one starts with "data: ", and the type read from the
  // lines before it is the type of the whole block.
  predicate Plain(block: seq<string>) {
    && (forall i, j :: 0 <= i < j < |block| && IsData(block[i]) ==> !IsData(block[j]))
    && (forall k :: 0 <= k < |block| && IsData(block[k]) ==>
          DATA <= block[k] && TypeRead(block[..k]) == TypeSent(block))
  }

  predicate OnlyData(block: seq<string>, k: int) {
    0 <= k < |block| && IsData(block[k]) && forall i :: 0 <= i < |block| && i != k ==> !IsData(block[i])
  }

  // What the reader reports for the data line at k.
  function OneCall(block: seq<string>, k: nat): seq<Call>
    requires k < |block|
  {
    if DATA <= block[k] then [Call(ReaderAfter(block[..k]).currentEvent, block[k][6..])] else []
  }

  lemma BlockInit(block: seq<string>)
    requires Block(block) && block != []
    ensures Block(block[..|block| - 1]) && block[|block| - 1] != "" && '\n' !in block[|block| - 1]
    ensures block == block[..|block| - 1] + [block[|block| - 1]]
  {
    var n := |block| - 1;
    assert block[n] in block;
    forall l | l in block[..n] ensures l in block {}
  }

  lemma {:induction false} NoDataNoCalls(block: seq<string>)
    requires Block(block)
    ensures Standard(START, block).calls == []
    ensures |ReaderAfter(block).calls| <= |Standard(START, block).data|
    ensures Standard(START, block).data == [] <==> forall l :: l in block ==> !IsData(l)
    ensures forall c :: c in ReaderAfter(block).calls ==> '\n' !in c.data
    decreases |block|
  {
    if block != [] {
      var n := |block| - 1;
      var before, l := block[..n], block[n];
      BlockInit(block);
      NoDataNoCalls(before);
      ReaderSnoc(Progress("", []), before, l);
      PrefixedData(l);
      assert Standard(START, block) == OnStandard(Standard(START, before), l);
      if !IsData(l) && forall x :: x in before ==> !IsData(x) {
        forall x | x in block ensures !IsData(x) { assert x in before || x == l; }
      }
    }
  }

  lemma {:induction false} OneDataLine(block: seq<string>, k: nat)
    requires Block(block) && OnlyData(block, k)
    ensures Standard(START, block).data == [FieldValue(block[k])] && ReaderAfter(block).calls == OneCall(block, k)
    decreases |block|
  {
    var n := |block| - 1;
    var before, l := block[..n], block[n];
    BlockInit(block);
    ReaderSnoc(Progress("", []), before, l);
    PrefixedData(l);
    if k < n {
      assert !IsData(l);
      assert before[k] == block[k] && before[..k] == block[..k];
      OneDataLine(before, k);
    } else {
      forall x | x in before ensures !IsData(x) { var i :| 0 <= i < n && before[i] == x; assert block[i] == x; }
      NoDataNoCalls(before);
      assert block[..k] == before;
    }
  }

  lemma {:induction false} OneOrMany(block: seq<string>) returns (k: nat)
    requires Block(block) && |Standard(START, block).data| == 1
    ensures OnlyData(block, k)
    decreases |block|
  {
    var n := |block| - 1;
    var before, l := block[..n], block[n];
    BlockInit(block);
    if IsData(l) {
      NoDataNoCalls(before);
      k := n;
      forall i | 0 <= i < n ensures !IsData(block[i]) { assert block[i] == before[i] && before[i] in before; }
    } else {
      k := OneOrMany(before);
      forall i | 0 <= i < |block| && i != k ensures !IsData(block[i]) { if i < n { assert block[i] == before[i]; } }
    }
  }

  lemma {:induction false} TypesTracked(lines: seq<string>)
    requires Block(lines)
    ensures Standard(START, lines).event == TypeSent(lines)
    ensures (forall l :: l in lines ==> !IsData(l)) ==> ReaderAfter(lines).currentEvent == TypeRead(lines)
    decreases |lines|
  {
    if lines != [] {
      var n := |lines| - 1;
      BlockInit(lines);
      TypesTracked(lines[..n]);
      ReaderSnoc(Progress("", []), lines[..n], lines[n]);
      PrefixedData(lines[n]);
      if forall l :: l in lines ==> !IsData(l) {
        assert lines[n] in lines;
        forall l | l in lines[..n] ensures !IsData(l) { assert l in lines; }
      }
    }
  }

  lemma OnlyDataPlain(block: seq<string>, k: nat)
    requires Block(block) && OnlyData(block, k)
    ensures ReaderAfter(block).calls == Dispatched(Standard(START, block)) <==> Plain(block)
  {
    OneDataLine(block, k);
    TypesTracked(block);
    forall l | l in block[..k] ensures l in block && !IsData(l) {
      var i :| 0 <= i < k && block[..k][i] == l;
      assert block[i] == l;
    }
    TypesTracked(block[..k]);
    PrefixedData(block[k]);
    var value := FieldValue(block[k]);
    assert JoinBy([value], "\n") == value;
  }

  lemma JoinedHasNewline(pieces: seq<string>)
    requires |pieces| >= 2
    ensures '\n' in JoinBy(pieces, "\n")
  {
    assert (pieces[0] + "\n" + JoinBy(pieces[1..], "\n"))[|pieces[0]|] == '\n';
  }

  lemma NotThatCall(calls: seq<Call>, c: Call)
    requires '\n' in c.data && forall x :: x in calls ==> '\n' !in x.data
    ensures calls != [c]
  {
    assert c in [c];
  }

  lemma ManyNotPlain(block: seq<string>)
    requires Block(block) && |Standard(START, block).data| >= 2
    ensures !Plain(block)
  {
    NoDataNoCalls(block);
    var l :| l in block && IsData(l);
    var k :| 0 <= k < |block| && block[k] == l;
    if Plain(block) { OneDataLine(block, k); }
  }

  // Reader and standard make the same calls for an event exactly if it is plain.
  lemma BlockExactly(block: seq<string>)
    requires Block(block)
    ensures ReaderAfter(block).calls == Dispatched(Standard(START, block)) <==> Plain(block)
  {
    var b := Standard(START, block);
    NoDataNoCalls(block);
    if b.data == [] {
      assert forall k :: 0 <= k < |block| ==> block[k] in block;
    } else if |b.data| == 1 {
      var k := OneOrMany(block);
      OnlyDataPlain(block, k);
    } else {
      ManyNotPlain(block);
      JoinedHasNewline(b.data);
      NotThatCall(ReaderAfter(block).calls, Call(b.event, JoinBy(b.data, "\n")));
    }
  }

  // ---- whole streams ----

  // The stream's lines from one event boundary to the next.
  predicate BlockAt(lines: seq<string>, i: nat, n: nat) {
    && i < n <= |lines| && Boundary(lines, i) && lines[n - 1] == ""
    && forall j :: i <= j < n - 1 ==> lines[j] != ""
  }

  predicate Boundary(lines: seq<string>, n: nat) {
    n <= |lines| && (n == 0 || lines[n - 1] == "")
  }

  ghost predicate AllPlain(lines: seq<string>) {
    forall i: nat, n: nat :: BlockAt(lines, i, n) ==> Plain(lines[i..n - 1])
  }

  ghost predicate AgreeAtBoundaries(lines: seq<string>) {
    forall n: nat :: Boundary(lines, n) ==> ReaderAfter(lines[..n]).calls == StandardCalls(lines[..n])
  }

  lemma AtBoundary(lines: seq<string>, n: nat)
    requires Boundary(lines, n)
    ensures ReaderAfter(lines[..n]).currentEvent == ""
    ensures Standard(START, lines[..n]).event == "" && Standard(START, lines[..n]).data == []
  {
    if n > 0 {
      assert lines[..n] == lines[..n - 1] + [""];
      ReaderSnoc(Progress("", []), lines[..n - 1], "");
      StandardSnoc(START, lines[..n - 1], "");
      EmptyLine(ReaderAfter(lines[..n - 1]));
    } else {
      assert lines[..n] == [];
    }
  }

  lemma EmptyLine(p: Progress)
    ensures OnLine(p, "") == p.(currentEvent := "")
  {
    assert |EVENT| == 7 && |DATA| == 6;
  }

  lemma {:induction false} ReaderFrom(p: Progress, lines: seq<string>)
    ensures OnLines(p, lines).calls == p.calls + OnLines(p.(calls := []), lines).calls
    ensures OnLines(p, lines).currentEvent == OnLines(p.(calls := []), lines).currentEvent
    decreases |lines|
  {
    if lines == [] {
      assert p.calls + [] == p.calls;
    } else {
      var n := |lines| - 1;
      assert lines == lines[..n] + [lines[n]];
      ReaderFrom(p, lines[..n]);
      ReaderSnoc(p, lines[..n], lines[n]);
      ReaderSnoc(p.(calls := []), lines[..n], lines[n]);
    }
  }

  lemma {:induction false} StandardFrom(b: Buffers, lines: seq<string>)
    ensures Standard(b, lines) == var c := Standard(b.(calls := []), lines); c.(calls := b.calls + c.calls)
    decreases |lines|
  {
    if lines == [] {
      assert b.calls + [] == b.calls;
    } else {
      StandardFrom(b, lines[..|lines| - 1]);
    }
  }

  lemma {:induction false} StandardAppend(b: Buffers, x: seq<string>, y: seq<string>)
    ensures Standard(b, x + y) == Standard(Standard(b, x), y)
    decreases |y|
  {
    if y == [] {
      assert x + y == x;
    } else {
      var n := |y| - 1;
      StandardAppend(b, x, y[..n]);
      StandardSnoc(b, x + y[..n], y[n]);
      assert x + y == x + y[..n] + [y[n]];
    }
  }

  // One event later both have made the calls of before and those of the event's own lines.
  lemma OneBlockOn(lines: seq<string>, i: nat, n: nat)
    requires BlockAt(lines, i, n) && forall l :: l in lines ==> '\n' !in l
    ensures var block := lines[i..n - 1];
            && Block(block)
            && ReaderAfter(lines[..n]).calls == ReaderAfter(lines[..i]).calls + ReaderAfter(block).calls
            && StandardCalls(lines[..n]) == StandardCalls(lines[..i]) + Dispatched(Standard(START, block))
  {
    var block := lines[i..n - 1];
    assert lines[..n] == lines[..i] + block + [""] && lines[..n - 1] == lines[..i] + block;
    forall l | l in block ensures l != "" && '\n' !in l {
      var j :| 0 <= j < |block| && block[j] == l;
      assert lines[i + j] == l;
    }
    AtBoundary(lines, i);
    NoDataNoCalls(block);
    ReaderBlockOn(lines[..i], block);
    StandardBlockOn(lines[..i], block);
  }

  lemma ReaderBlockOn(before: seq<string>, block: seq<string>)
    requires ReaderAfter(before).currentEvent == ""
    ensures ReaderAfter(before + block + [""]).calls == ReaderAfter(before).calls + ReaderAfter(block).calls
  {
    var p := ReaderAfter(before);
    OnLinesAppend(Progress("", []), before, block);
    ReaderFrom(p, block);
    ReaderSnoc(Progress("", []), before + block, "");
    EmptyLine(OnLines(p, block));
  }

  lemma StandardBlockOn(before: seq<string>, block: seq<string>)
    requires Standard(START, before).event == "" && Standard(START, before).data == []
    requires Standard(START, block).calls == []
    ensures StandardCalls(before + block + [""]) == StandardCalls(before) + Dispatched(Standard(START, block))
  {
    var b := Standard(START, before);
    StandardAppend(START, before, block);
    StandardFrom(b, block);
    StandardSnoc(START, before + block, "");
    assert b.(calls := []) == START;
    assert Standard(b, block).calls == b.calls + [];
  }

  function LastBoundary(lines: seq<string>, n: nat): (i: nat)
    requires n <= |lines|
    ensures i <= n && Boundary(lines, i) && forall j :: i <= j < n ==> lines[j] != ""
    decreases n
  {
    if n == 0 || lines[n - 1] == "" then n else LastBoundary(lines, n - 1)
  }

  lemma {:induction false} PlainAgrees(lines: seq<string>, n: nat)
    requires AllPlain(lines) && Boundary(lines, n) && forall l :: l in lines ==> '\n' !in l
    ensures ReaderAfter(lines[..n]).calls == StandardCalls(lines[..n])
    decreases n
  {
    if n == 0 {
      assert lines[..0] == [];
    } else {
      var i := LastBoundary(lines, n - 1);
      assert BlockAt(lines, i, n);
      OneBlockOn(lines, i, n);
      BlockExactly(lines[i..n - 1]);
      PlainAgrees(lines, i);
    }
  }

  lemma SamePrefix<T>(a: seq<T>, b: seq<T>, x: seq<T>, y: seq<T>)
    requires a == b && a + x == b + y
    ensures x == y
  {
    assert x == (a + x)[|a|..] && y == (b + y)[|b|..];
  }

  // On a stream whose lines end with a newline the reader has reported what the standard dispatches,
  // at every event boundary, exactly if every event has at most one data line, that one with a space
  // after the colon, and the type read before that line is the event's.
  lemma AgreesExactly(text: string)
    ensures AgreeAtBoundaries(Complete(text)) <==> AllPlain(Complete(text))
  {
    var lines := Complete(text);
    SplitJoin(text);
    forall l | l in lines ensures '\n' !in l { assert l in Split(text); }
    if AllPlain(lines) {
      forall n: nat | Boundary(lines, n) ensures ReaderAfter(lines[..n]).calls == StandardCalls(lines[..n]) {
        PlainAgrees(lines, n);
      }
    }
    if AgreeAtBoundaries(lines) {
      forall i: nat, n: nat | BlockAt(lines, i, n) ensures Plain(lines[i..n - 1]) {
        OneBlockOn(lines, i, n);
        assert Boundary(lines, n);
        SamePrefix(ReaderAfter(lines[..i]).calls, StandardCalls(lines[..i]),
                   ReaderAfter(lines[i..n - 1]).calls, Dispatched(Standard(START, lines[i..n - 1])));
        BlockExactly(lines[i..n - 1]);
      }
    }
  }

  lemma DataWithoutSpace(x: string)
    requires x != "" && x[0] != ' '
    ensures FieldName("data:" + x) == "data" && FieldValue("data:" + x) == x
    ensures forall p :: OnLine(p, "data:" + x) == p
  {
    var line := "data:" + x;
    assert line[4] == ':' && forall j :: 0 <= j < 4 ==> line[j] == "data"[j];
    assert Colon(line) == 4 && line[..4] == "data" && line[5..] == x;
    assert line[5] != DATA[5] && line[0] != EVENT[0];
    NotBlank(line);
  }

  // The standard dispatches a data field without the space; the reader passes it over.
  lemma NoSpaceIsLost(x: string)
    requires x != "" && x[0] != ' '
    ensures StandardCalls(["data:" + x, ""]) == [Call("", x)] && ReaderAfter(["data:" + x, ""]).calls == []
  {
    var line := "data:" + x;
    DataWithoutSpace(x);
    StandardSnoc(START, [], line);
    StandardSnoc(START, [line], "");
    assert [] + [line] == [line] && [line] + [""] == [line, ""];
    assert [] + [x] == [x] && JoinBy([x], "\n") == x;
    ReaderSnoc(Progress("", []), [], line);
    ReaderSnoc(Progress("", []), [line], "");
    EmptyLine(ReaderAfter([line]));
  }

  // ---- what the engine sends ----

  lemma FieldOf(name: string, value: string)
    requires ':' !in name
    ensures FieldName(name + ": " + value) == name && FieldValue(name + ": " + value) == value
  {
    var line := name + ": " + value;
    assert line[|name|] == ':' && forall j :: 0 <= j < |name| ==> line[j] == name[j];
    assert Colon(line) == |name| && line[|name| + 1] == ' ' && line[|name| + 1..][1..] == value;
  }

  lemma EventLine(b: Buffers, name: string)
    ensures OnStandard(b, EVENT + name) == b.(event := name)
  {
    assert EVENT + name == "event" + ": " + name;
    FieldOf("event", name);
  }

  lemma DataLine(b: Buffers, value: string)
    ensures OnStandard(b, DATA + value) == b.(data := b.data + [value])
  {
    assert DATA + value == "data" + ": " + value;
    FieldOf("data", value);
  }

  lemma StandardThree(b: Buffers, x: string, y: string, z: string)
    ensures Standard(b, [x, y, z]) == OnStandard(OnStandard(OnStandard(b, x), y), z)
  {
    StandardSnoc(b, [], x);
    StandardSnoc(b, [x], y);
    StandardSnoc(b, [x, y], z);
    assert [] + [x] == [x] && [x] + [y] == [x, y] && [x, y] + [z] == [x, y, z];
  }

  lemma EventLines(b: Buffers, e: Call)
    requires b.data == []
    ensures Standard(b, [EVENT + e.event, DATA + e.data, ""]) == Buffers("", [], b.calls + [e])
  {
    StandardThree(b, EVENT + e.event, DATA + e.data, "");
    EventLine(b, e.event);
    DataLine(b.(event := e.event), e.data);
    assert b.data + [e.data] == [e.data];
  }

  lemma {:induction false} StandardLines(b: Buffers, events: seq<Call>)
    requires b.event == "" && b.data == []
    ensures Standard(b, Lines(events)) == b.(calls := b.calls + events)
    decreases |events|
  {
    if events == [] {
      assert b.calls + [] == b.calls;
    } else {
      FirstLines(b, events);
      StandardLines(Buffers("", [], b.calls + [events[0]]), events[1..]);
      assert b.calls + [events[0]] + events[1..] == b.calls + events by { assert [events[0]] + events[1..] == events; }
    }
  }

  lemma FirstLines(b: Buffers, events: seq<Call>)
    requires b.data == [] && events != []
    ensures Standard(b, Lines(events)) == Standard(Buffers("", [], b.calls + [events[0]]), Lines(events[1..]))
  {
    var e := events[0];
    EventLines(b, e);
    StandardAppend(b, [EVENT + e.event, DATA + e.data, ""], Lines(events[1..]));
  }

  lemma GreetingIsComment()
    ensures Standard(START, [GREETING, ""]) == START
  {
    assert Colon(GREETING) == 0;
    StandardSnoc(START, [], GREETING);
    StandardSnoc(START, [GREETING], "");
    assert [] + [GREETING] == [GREETING] && [GREETING] + [""] == [GREETING, ""];
  }

  // By the standard the engine's stream always dispatches the written events, so on it the reader
  // agrees exactly if no event name has outer whitespace.
  lemma EngineStream(events: seq<Call>)
    requires OneLine(events)
    ensures StandardCalls(Complete(Stream(events))) == events
    ensures OnePass(Stream(events)).calls == StandardCalls(Complete(Stream(events)))
       <==> forall e :: e in events ==> Trim(e.event) == e.event
  {
    StreamLines(events);
    assert Complete(Stream(events)) == [GREETING, ""] + Lines(events);
    StandardAppend(START, [GREETING, ""], Lines(events));
    GreetingIsComment();
    StandardLines(START, events);
    WriteThenRead(events);
  }
}
