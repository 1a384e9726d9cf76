/** What a client of section 9.2 of the HTML Living Standard (server-sent events) makes
    of a log stream: the standard's line splitting and event interpretation, and the
    handler's output (internal/api/logstream_handlers.go) read back through them. The
    id and retry fields, which the handler never sends, are ignored like unknown ones. */
module EventSource {
  import opened Basics
  import opened Sse

  datatype Event = Event(kind: string, data: string)

  predicate IsEnd(c: char) { c == LF || c == CR }

  function LineEnd(s: string): (n: nat)
    ensures n <= |s| && (forall i :: 0 <= i < n ==> !IsEnd(s[i])) && (n < |s| ==> IsEnd(s[n]))
  {
    if s == "" || IsEnd(s[0]) then 0 else 1 + LineEnd(s[1..])
  }

  /** The lines of a stream: each ends with a line feed, a carriage return, or both. An
      unfinished line at the end is dropped. */
  function EventLines(s: string): (lines: seq<string>)
    ensures forall i :: 0 <= i < |lines| ==> CR !in lines[i] && LF !in lines[i]
    decreases |s|
  {
    var n := LineEnd(s);
    if n == |s| then []
    else [s[..n]] + EventLines(if s[n] == CR && n + 1 < |s| && s[n + 1] == LF then s[n + 2..] else s[n + 1..])
  }

  /** The field a line sets and its value; one space after the colon is not part of it. */
  function Field(line: string): (string, string) {
    var n := IndexOf(line, ':');
    if n == |line| then (line, "")
    else if n + 1 < |line| && line[n + 1] == ' ' then (line[..n], line[n + 2..])
    else (line[..n], line[n + 1..])
  }

  function WithoutLastLF(data: string): string {
    if data != "" && data[|data| - 1] == LF then data[..|data| - 1] else data
  }

  /** The events dispatched for the lines, given the event type and data buffers. */
  function Interpret(lines: seq<string>, kind: string, data: string): seq<Event> {
    if lines == [] then []
    else if lines[0] == "" then
      (if data == "" then [] else [Event(if kind == "" then "message" else kind, WithoutLastLF(data))])
      + Interpret(lines[1..], "", "")
    else
      var (name, value) := Field(lines[0]);
      if name == "event" then Interpret(lines[1..], value, data)
      else if name == "data" then Interpret(lines[1..], kind, data + value + [LF])
      else Interpret(lines[1..], kind, data)
  }

  function Events(body: string): seq<Event> { Interpret(EventLines(body), "", "") }

  // ------------------------------------------------------- reading back

  lemma EventLine(line: string, rest: string)
    requires CR !in line && LF !in line
    ensures EventLines(line + [LF] + rest) == [line] + EventLines(rest)
  {
    var s := line + [LF] + rest;
    assert s[|line|] == LF;
    assert forall i :: 0 <= i < |line| ==> s[i] == line[i];
    assert LineEnd(s) == |line|;
    assert s[..|line|] == line && s[|line| + 1..] == rest;
  }

  lemma DataField(line: string)
    ensures Field(DataPrefix + line) == ("data", line) && DataPrefix + line != ""
  {
    var s := DataPrefix + line;
    assert s[0] == 'd' && s[1] == 'a' && s[2] == 't' && s[3] == 'a' && s[4] == ':' && s[5] == ' ';
    assert IndexOf(s, ':') == 4;
    assert s[..4] == "data" && s[6..] == line;
  }

  lemma EventField(kind: string)
    ensures Field("event: " + kind) == ("event", kind) && "event: " + kind != ""
  {
    var s := "event: " + kind;
    assert s[0] == 'e' && s[1] == 'v' && s[2] == 'e' && s[3] == 'n' && s[4] == 't' && s[5] == ':' && s[6] == ' ';
    assert IndexOf(s, ':') == 5;
    assert s[..5] == "event" && s[7..] == kind;
  }

  function Ended(lines: seq<string>): string {
    if lines == [] then "" else lines[0] + [LF] + Ended(lines[1..])
  }

  lemma {:induction false} EndedJoin(lines: seq<string>)
    requires lines != []
    ensures Ended(lines) == Join(lines) + [LF]
  {
    if |lines| > 1 { EndedJoin(lines[1..]); }
  }

  /** Data lines are gathered into the data buffer. */
  lemma {:induction false} InterpretDataLines(lines: seq<string>, rest: string, kind: string, data: string)
    requires forall i :: 0 <= i < |lines| ==> CR !in lines[i] && LF !in lines[i]
    ensures Interpret(EventLines(DataLines(lines) + rest), kind, data)
      == Interpret(EventLines(rest), kind, data + Ended(lines))
  {
    hide EventLines, Field;
    if lines == [] {
      assert DataLines(lines) + rest == rest;
      assert data + "" == data;
    } else {
      var tail := DataLines(lines[1..]) + rest;
      InterpretDataLines(lines[1..], rest, kind, data + lines[0] + [LF]);
      assert DataLines(lines) + rest == (DataPrefix + lines[0]) + [LF] + tail;
      EventLine(DataPrefix + lines[0], tail);
      DataField(lines[0]);
      InterpretCons(DataPrefix + lines[0], EventLines(tail), kind, data);
      assert data + lines[0] + [LF] + Ended(lines[1..]) == data + Ended(lines);
    }
  }

  lemma InterpretCons(line: string, later: seq<string>, kind: string, data: string)
    ensures Field(line).0 == "data" && line != "" ==>
      Interpret([line] + later, kind, data) == Interpret(later, kind, data + Field(line).1 + [LF])
    ensures Field(line).0 == "event" && line != "" ==>
      Interpret([line] + later, kind, data) == Interpret(later, Field(line).1, data)
    ensures line == "" && data != "" ==>
      Interpret([line] + later, kind, data)
        == [Event(if kind == "" then "message" else kind, WithoutLastLF(data))] + Interpret(later, "", "")
  {
    hide Field;
    assert ([line] + later)[1..] == later;
  }

  lemma DispatchBlank(rest: string, kind: string, data: string)
    ensures Interpret(EventLines([LF] + rest), kind, data + [LF])
      == [Event(if kind == "" then "message" else kind, data)] + Events(rest)
  {
    assert "" + [LF] + rest == [LF] + rest;
    EventLine("", rest);
    InterpretCons("", EventLines(rest), kind, data + [LF]);
    assert (data + [LF])[..|data|] == data;
  }

  lemma NoReturnInLines(text: string)
    requires CR !in text
    ensures forall i :: 0 <= i < |Split(text)| ==> CR !in Split(text)[i] && LF !in Split(text)[i]
  {
    JoinOfSplit(text);
    forall i | 0 <= i < |Split(text)| ensures CR !in Split(text)[i] {
      var from, to := LineIsStretch(text, i);
      assert forall k :: from <= k < to ==> text[k] == text[from..to][k - from];
    }
  }

  lemma ChunkEvent(chunk: string, rest: string)
    requires CR !in chunk
    ensures Events(Chunk(chunk) + rest) == [Event("message", TrimRight(chunk))] + Events(rest)
  {
    var text := TrimRight(chunk);
    var lines := Split(text);
    NoReturnInLines(text);
    JoinOfSplit(text);
    hide TrimRight, Split, Interpret, EventLines;
    EndedJoin(lines);
    assert Chunk(chunk) + rest == DataLines(lines) + ([LF] + rest);
    InterpretDataLines(lines, [LF] + rest, "", "");
    assert "" + Ended(lines) == text + [LF];
    DispatchBlank(rest, "", text);
  }

  lemma NamedEventEvent(kind: string, data: string, rest: string)
    requires CR !in kind && LF !in kind && CR !in data && LF !in data && kind != ""
    ensures Events(NamedEvent(kind, data) + rest) == [Event(kind, data)] + Events(rest)
  {
    hide Interpret, EventLines, Field;
    var tail := DataLines([data]) + ([LF] + rest);
    assert [data][1..] == [];
    assert DataLines([data]) == DataPrefix + data + [LF] + DataLines([data][1..]);
    assert NamedEvent(kind, data) + rest == ("event: " + kind) + [LF] + tail;
    EventLine("event: " + kind, tail);
    EventField(kind);
    InterpretCons("event: " + kind, EventLines(tail), "", "");
    InterpretDataLines([data], [LF] + rest, kind, "");
    EndedJoin([data]);
    assert "" + Ended([data]) == data + [LF];
    DispatchBlank(rest, kind, data);
  }

  function Messages(chunks: seq<string>): seq<Event> {
    if chunks == [] then [] else [Event("message", TrimRight(chunks[0]))] + Messages(chunks[1..])
  }

  lemma {:induction false} BodyEvents(chunks: seq<string>, rest: string)
    requires CR !in Concat(chunks)
    ensures Events(Body(chunks) + rest) == Messages(chunks) + Events(rest)
  {
    hide Events, Chunk, TrimRight;
    if chunks == [] {
      assert Body(chunks) + rest == rest;
      assert [] + Events(rest) == Events(rest);
    } else {
      var all := Concat(chunks);
      assert all == chunks[0] + Concat(chunks[1..]);
      BodyEvents(chunks[1..], rest);
      assert Body(chunks) + rest == Chunk(chunks[0]) + (Body(chunks[1..]) + rest);
      ChunkEvent(chunks[0], Body(chunks[1..]) + rest);
    }
  }

  // ------------------------------------------------- carriage returns are lost

  lemma {:induction false} NoReturnDispatched(lines: seq<string>, kind: string, data: string)
    requires CR !in data && forall i :: 0 <= i < |lines| ==> CR !in lines[i]
    ensures forall i :: 0 <= i < |Interpret(lines, kind, data)| ==> CR !in Interpret(lines, kind, data)[i].data
  {
    if lines != [] {
      var (name, value) := Field(lines[0]);
      assert CR !in value;
      assert forall i :: 0 <= i < |lines[1..]| ==> lines[1..][i] == lines[i + 1];
      hide Field;
      NoReturnDispatched(lines[1..], "", "");
      NoReturnDispatched(lines[1..], value, data);
      NoReturnDispatched(lines[1..], kind, data + value + [LF]);
      NoReturnDispatched(lines[1..], kind, data);
    }
  }

  lemma {:induction false} ReturnInMessages(chunks: seq<string>) returns (i: nat)
    requires CR in Concat(chunks)
    ensures i < |chunks| && i < |Messages(chunks)| && CR in Messages(chunks)[i].data
  {
    if CR in chunks[0] {
      i := 0;
      var k :| 0 <= k < |chunks[0]| && chunks[0][k] == CR;
      assert TrimRight(chunks[0])[k] == CR;
    } else {
      assert CR in Concat(chunks[1..]);
      i := ReturnInMessages(chunks[1..]);
      i := i + 1;
    }
  }

  /** A client that follows the standard receives one message a chunk, the chunk without
      its trailing newlines, and then the end event with the status, if and only if the
      log holds no carriage return; the length of the lines does not matter to it. */
  lemma StreamEvents(chunks: seq<string>, status: string)
    requires CR !in status && LF !in status
    ensures Events(Body(chunks) + NamedEvent("end", status)) == Messages(chunks) + [Event("end", status)]
      <==> CR !in Concat(chunks)
  {
    var body := Body(chunks) + NamedEvent("end", status);
    NoReturnDispatched(EventLines(body), "", "");
    assert Events("") == [];
    NamedEventEvent("end", status, "");
    hide Interpret, EventLines, Body, NamedEvent, Messages, Concat;
    assert NamedEvent("end", status) + "" == NamedEvent("end", status);
    if CR !in Concat(chunks) {
      BodyEvents(chunks, NamedEvent("end", status));
    } else {
      var i := ReturnInMessages(chunks);
      assert (Messages(chunks) + [Event("end", status)])[i] == Messages(chunks)[i];
    }
  }
}
