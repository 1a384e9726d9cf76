/** Build logs as server-sent events: what the API handler writes
    (internal/api/logstream_handlers.go), what the command-line client prints
    (cmd/uran/logs.go), and what a client of section 9.2 of the HTML Living
    Standard receives. A character stands for one byte. */
module Sse {
  import opened Basics

  const LF := '\n'
  const CR := '\r'

  /** The longest line the client's scanner takes, its newline included. */
  const MaxLine := 0x10_0000

  // -------------------------------------------------------------------- text

  function TrimRight(s: string): (r: string)
    ensures r <= s
    ensures r != "" ==> r[|r| - 1] != LF
    ensures forall i :: |r| <= i < |s| ==> s[i] == LF
  {
    if s != "" && s[|s| - 1] == LF then TrimRight(s[..|s| - 1]) else s
  }

  /** strings.Split on newlines: one more line than there are newlines. */
  function Split(s: string): (lines: seq<string>)
    ensures lines != []
  {
    if s == "" then [""]
    else
      var rest := Split(s[1..]);
      if s[0] == LF then [""] + rest else [[s[0]] + rest[0]] + rest[1..]
  }

  function Join(lines: seq<string>): string {
    if lines == [] then "" else if |lines| == 1 then lines[0] else lines[0] + [LF] + Join(lines[1..])
  }

  /** The text without its newlines. */
  function Bytes(s: string): string {
    if s == "" then "" else (if s[0] == LF then "" else [s[0]]) + Bytes(s[1..])
  }

  lemma {:induction false} JoinOfSplit(s: string)
    ensures Join(Split(s)) == s
    ensures forall i :: 0 <= i < |Split(s)| ==> LF !in Split(s)[i]
  {
    if s != "" {
      JoinOfSplit(s[1..]);
      var rest := Split(s[1..]);
      if s[0] != LF {
        assert Split(s)[1..] == rest[1..];
      } else {
        assert Split(s)[1..] == rest;
      }
    }
  }

  lemma {:induction false} BytesOfConcat(a: string, b: string)
    ensures Bytes(a + b) == Bytes(a) + Bytes(b)
  {
    if a == "" {
      assert a + b == b;
    } else {
      BytesOfConcat(a[1..], b);
      assert (a + b)[1..] == a[1..] + b && (a + b)[0] == a[0];
      var head := if a[0] == LF then "" else [a[0]];
      assert Bytes(a + b) == head + Bytes((a + b)[1..]);
      assert head + (Bytes(a[1..]) + Bytes(b)) == (head + Bytes(a[1..])) + Bytes(b);
    }
  }

  lemma {:induction false} BytesWithoutNewlines(s: string)
    ensures LF !in s ==> Bytes(s) == s
    ensures (forall i :: 0 <= i < |s| ==> s[i] == LF) ==> Bytes(s) == ""
  {
    if s != "" {
      BytesWithoutNewlines(s[1..]);
    }
  }

  lemma {:induction false} BytesOfSplit(s: string)
    ensures Concat(Split(s)) == Bytes(s)
  {
    if s != "" {
      BytesOfSplit(s[1..]);
      var rest := Split(s[1..]);
      if s[0] == LF {
        assert Split(s)[1..] == rest;
      } else {
        assert Split(s)[1..] == rest[1..];
      }
    }
  }

  lemma BytesOfTrimmed(s: string)
    ensures Bytes(TrimRight(s)) == Bytes(s)
  {
    var r := TrimRight(s);
    assert s == r + s[|r|..];
    BytesOfConcat(r, s[|r|..]);
    BytesWithoutNewlines(s[|r|..]);
  }

  // ------------------------------------------------------------- the printer

  const DataPrefix := "data: "

  function DataLines(lines: seq<string>): string {
    if lines == [] then "" else DataPrefix + lines[0] + [LF] + DataLines(lines[1..])
  }

  /** writeSSE. */
  function Chunk(chunk: string): string {
    DataLines(Split(TrimRight(chunk))) + [LF]
  }

  /** writeSSEEvent. */
  function NamedEvent(event: string, data: string): string {
    "event: " + event + [LF] + DataPrefix + data + [LF, LF]
  }

  class Response {
    var body: string

    constructor ()
      ensures body == ""
    {
      body := "";
    }

    method Write(s: string)
      modifies this
      ensures body == old(body) + s
    {
      body := body + s;
    }
  }

  lemma {:induction false} DataLinesSnoc(lines: seq<string>, line: string)
    ensures DataLines(lines + [line]) == DataLines(lines) + DataPrefix + line + [LF]
  {
    if lines == [] {
      assert [line][1..] == [];
      assert DataLines([line][1..]) == "";
    } else {
      DataLinesSnoc(lines[1..], line);
      assert (lines + [line])[1..] == lines[1..] + [line];
    }
  }

  method WriteSse(w: Response, chunk: string)
    modifies w
    ensures w.body == old(w.body) + Chunk(chunk)
  {
    var lines := Split(TrimRight(chunk));
    for i := 0 to |lines|
      invariant w.body == old(w.body) + DataLines(lines[..i])
    {
      DataLinesSnoc(lines[..i], lines[i]);
      assert lines[..i + 1] == lines[..i] + [lines[i]];
      w.Write(DataPrefix + lines[i] + [LF]);
    }
    assert lines[..|lines|] == lines;
    w.Write([LF]);
  }

  // ------------------------------------------------ the command-line client

  function IndexOf(s: string, c: char): (n: nat)
    ensures n <= |s| && (forall i :: 0 <= i < n ==> s[i] != c) && (n < |s| ==> s[n] == c)
  {
    if s == "" || s[0] == c then 0 else 1 + IndexOf(s[1..], c)
  }

  /** bufio.ScanLines also takes a carriage return off the end of a line. */
  function DropCR(line: string): string {
    if line != "" && line[|line| - 1] == CR then line[..|line| - 1] else line
  }

  /** Printed lines, and whether the client stopped early because a line does not fit
      its scanner. */
  datatype Output = Output(lines: seq<string>, tooLong: bool)

  function Then(lines: seq<string>, later: Output): Output {
    Output(lines + later.lines, later.tooLong)
  }

  lemma ThenThen(a: seq<string>, b: seq<string>, later: Output)
    ensures Then(a, Then(b, later)) == Then(a + b, later)
    ensures Then([], later) == later
    ensures Then(a, Output([], later.tooLong)) == Output(a, later.tooLong)
  {
    assert a + (b + later.lines) == (a + b) + later.lines;
    assert [] + later.lines == later.lines;
    assert a + [] == a;
  }

  /** The payload of a data line. */
  function Payload(line: string): seq<string> {
    if DataPrefix <= line then [line[|DataPrefix|..]] else []
  }

  /** What the client prints for a response body. */
  function Printed(body: string): Output
    decreases |body|
  {
    if body == "" then Output([], false)
    else
      var n := IndexOf(body, LF);
      if n >= MaxLine then Output([], true)
      else Then(Payload(DropCR(body[..n])), Printed(if n < |body| then body[n + 1..] else ""))
  }

  /** streamBuildLogs: the scanner loop over the response body. */
  method StreamBuildLogs(body: string) returns (out: seq<string>, tooLong: bool)
    ensures Output(out, tooLong) == Printed(body)
  {
    out, tooLong := [], false;
    var rest := body;
    ThenThen([], [], Printed(body));
    while rest != ""
      invariant Printed(body) == Then(out, Printed(rest))
      decreases |rest|
    {
      var n := IndexOf(rest, LF);
      if n >= MaxLine {
        return out, true;
      }
      var line := DropCR(rest[..n]);
      rest := if n < |rest| then rest[n + 1..] else "";
      ThenThen(out, Payload(line), Printed(rest));
      if DataPrefix <= line {
        out := out + [line[|DataPrefix|..]];
      }
    }
  }

  lemma IndexOfFirst(a: string, b: string, c: char)
    requires c !in a
    ensures IndexOf(a + [c] + b, c) == |a|
  {
    var s := a + [c] + b;
    assert s[|a|] == c;
    assert forall i :: 0 <= i < |a| ==> s[i] == a[i];
  }

  /** One newline-terminated line at the head of the stream. */
  lemma PrintedLine(line: string, rest: string)
    requires LF !in line
    ensures Printed(line + [LF] + rest) ==
      if |line| < MaxLine then Then(Payload(DropCR(line)), Printed(rest)) else Output([], true)
  {
    var body := line + [LF] + rest;
    IndexOfFirst(line, rest, LF);
    assert body[..|line|] == line && body[|line| + 1..] == rest;
  }

  /** A data line is printed as it is, without a final carriage return. */
  lemma PrintedData(line: string, rest: string)
    requires LF !in line
    ensures Printed(DataPrefix + line + [LF] + rest) ==
      if |DataPrefix| + |line| < MaxLine then Then([DropCR(line)], Printed(rest)) else Output([], true)
  {
    hide Printed;
    PrintedLine(DataPrefix + line, rest);
    var full := DataPrefix + line;
    if line == "" {
      assert full == DataPrefix && full[|full| - 1] == ' ';
    } else {
      assert full[|full| - 1] == line[|line| - 1];
      assert DropCR(full) == DataPrefix + DropCR(line);
    }
  }

  /** In numbers: a line of up to 1048569 bytes is printed, a longer one ends the output. */
  lemma LongestLine(line: string, rest: string)
    requires LF !in line && CR !in line
    ensures |line| < 1048570 ==> Printed("data: " + line + "\n" + rest) == Then([line], Printed(rest))
    ensures |line| >= 1048570 ==> Printed("data: " + line + "\n" + rest) == Output([], true)
  {
    hide Printed;
    PrintedData(line, rest);
    assert [LF] == "\n";
  }

  lemma PrintedBlank(rest: string)
    ensures Printed([LF] + rest) == Printed(rest)
  {
    hide Printed;
    PrintedLine("", rest);
    assert "" + [LF] + rest == [LF] + rest;
    assert !(DataPrefix <= "");
    ThenThen([], [], Printed(rest));
  }

  /** What the client prints for data lines, whatever they hold: all of them without
      their final carriage returns, up to the first that does not fit. */
  function Shown(lines: seq<string>, later: Output): Output {
    if lines == [] then later
    else if |DataPrefix| + |lines[0]| >= MaxLine then Output([], true)
    else Then([DropCR(lines[0])], Shown(lines[1..], later))
  }

  lemma {:induction false} PrintedDataLines(lines: seq<string>, rest: string)
    requires forall i :: 0 <= i < |lines| ==> LF !in lines[i]
    ensures Printed(DataLines(lines) + rest) == Shown(lines, Printed(rest))
  {
    hide Printed, DropCR, Then;
    if lines == [] {
      assert DataLines(lines) + rest == rest;
    } else {
      PrintedDataLines(lines[1..], rest);
      PrintedData(lines[0], DataLines(lines[1..]) + rest);
      assert DataLines(lines) + rest == DataPrefix + lines[0] + [LF] + (DataLines(lines[1..]) + rest);
    }
  }

  lemma PrintedChunk(chunk: string, rest: string)
    ensures Printed(Chunk(chunk) + rest) == Shown(Split(TrimRight(chunk)), Printed(rest))
  {
    hide Printed, TrimRight, Split, DataLines;
    var lines := Split(TrimRight(chunk));
    JoinOfSplit(TrimRight(chunk));
    PrintedBlank(rest);
    assert Chunk(chunk) + rest == DataLines(lines) + ([LF] + rest);
    PrintedDataLines(lines, [LF] + rest);
  }

  // ----------------------------------------------------------- round trips

  /** A line that reaches the terminal unchanged. */
  predicate Survives(line: string) {
    |DataPrefix| + |line| < MaxLine && (line != "" ==> line[|line| - 1] != CR)
  }

  predicate AllSurvive(lines: seq<string>) {
    forall i :: 0 <= i < |lines| ==> Survives(lines[i])
  }

  lemma {:induction false} ShownUnchanged(lines: seq<string>, later: Output)
    ensures AllSurvive(lines) ==> Shown(lines, later) == Then(lines, later)
  {
    if lines == [] {
      ThenThen([], [], later);
    } else if AllSurvive(lines) {
      ShownUnchanged(lines[1..], later);
      ThenThen([lines[0]], lines[1..], later);
      assert [lines[0]] + lines[1..] == lines;
    }
  }

  lemma {:induction false} ShownChanged(lines: seq<string>)
    ensures !AllSurvive(lines) ==> Shown(lines, Output([], false)) != Output(lines, false)
  {
    if lines != [] && |DataPrefix| + |lines[0]| < MaxLine {
      ShownChanged(lines[1..]);
      var tail := Shown(lines[1..], Output([], false));
      assert Shown(lines, Output([], false)) == Then([DropCR(lines[0])], tail);
      assert ([DropCR(lines[0])] + tail.lines)[1..] == tail.lines;
      if Survives(lines[0]) && AllSurvive(lines[1..]) {
        assert AllSurvive(lines) by {
          assert forall i :: 0 < i < |lines| ==> lines[i] == lines[1..][i - 1];
        }
      }
    }
  }

  /** The client prints exactly the lines of a chunk, which joined by newlines are the
      chunk without its trailing newlines, if and only if no line of the chunk ends
      with a carriage return or is too long. */
  lemma ChunkRoundTrip(chunk: string)
    ensures var lines := Split(TrimRight(chunk));
      && (Printed(Chunk(chunk)) == Output(lines, false) <==> AllSurvive(lines))
      && Join(lines) == TrimRight(chunk)
  {
    hide Printed, TrimRight, Split, AllSurvive, Shown;
    var lines := Split(TrimRight(chunk));
    JoinOfSplit(TrimRight(chunk));
    PrintedChunk(chunk, "");
    assert Chunk(chunk) + "" == Chunk(chunk);
    assert Printed("") == Output([], false) by { NothingPrinted(); }
    ShownUnchanged(lines, Output([], false));
    ShownChanged(lines);
    ThenThen(lines, [], Output([], false));
  }

  lemma NothingPrinted()
    ensures Printed("") == Output([], false)
  {}

  // ---------------------------------------------------------- whole streams

  /** The response after these chunks were streamed. */
  function Body(chunks: seq<string>): string {
    if chunks == [] then "" else Chunk(chunks[0]) + Body(chunks[1..])
  }

  function Lines(chunks: seq<string>): seq<string> {
    if chunks == [] then [] else Split(TrimRight(chunks[0])) + Lines(chunks[1..])
  }

  lemma {:induction false} ShownOfConcat(a: seq<string>, b: seq<string>, later: Output)
    ensures Shown(a + b, later) == Shown(a, Shown(b, later))
  {
    if a == [] {
      assert a + b == b;
    } else {
      ShownOfConcat(a[1..], b, later);
      assert (a + b)[1..] == a[1..] + b && (a + b)[0] == a[0];
    }
  }

  lemma {:induction false} PrintedBody(chunks: seq<string>, rest: string)
    ensures Printed(Body(chunks) + rest) == Shown(Lines(chunks), Printed(rest))
  {
    hide Printed, Shown, Split, TrimRight, Chunk;
    if chunks == [] {
      assert Body(chunks) + rest == rest;
      ShownNothing(Printed(rest));
    } else {
      PrintedBody(chunks[1..], rest);
      assert Body(chunks) + rest == Chunk(chunks[0]) + (Body(chunks[1..]) + rest);
      PrintedChunk(chunks[0], Body(chunks[1..]) + rest);
      ShownOfConcat(Split(TrimRight(chunks[0])), Lines(chunks[1..]), Printed(rest));
    }
  }

  lemma ShownNothing(later: Output)
    ensures Shown([], later) == later
  {}

  /** The client does not look at event names: it prints the data of the end event. */
  lemma PrintedEvent(event: string, data: string)
    requires LF !in event && CR !in event && LF !in data && CR !in data
    requires |event| + 7 < MaxLine && |data| + 6 < MaxLine
    ensures Printed(NamedEvent(event, data)) == Output([data], false)
  {
    hide Printed;
    var first, last := "event: " + event, DataPrefix + data + [LF] + [LF];
    assert NamedEvent(event, data) == first + [LF] + last;
    assert LF !in first && DropCR(first) == first;
    assert first[0] == 'e';
    PrintedLine(first, last);
    PrintedData(data, [LF]);
    assert [LF] + "" == [LF];
    PrintedBlank("");
    NothingPrinted();
    ThenThen([data], [], Output([], false));
    ThenThen([], [], Printed(last));
  }

  lemma {:induction false} BytesOfLines(chunks: seq<string>)
    ensures Concat(Lines(chunks)) == Bytes(Concat(chunks))
  {
    hide Split, TrimRight, Bytes;
    if chunks == [] {
      BytesWithoutNewlines("");
    } else {
      BytesOfLines(chunks[1..]);
      ConcatOfConcat(Split(TrimRight(chunks[0])), Lines(chunks[1..]));
      BytesOfSplit(TrimRight(chunks[0]));
      BytesOfTrimmed(chunks[0]);
      BytesOfConcat(chunks[0], Concat(chunks[1..]));
    }
  }

  predicate AllFit(lines: seq<string>) {
    forall i :: 0 <= i < |lines| ==> |DataPrefix| + |lines[i]| < MaxLine
  }

  /** How much of the lines is shown: less than all of it when one of them does not survive. */
  lemma {:induction false} ShownLength(lines: seq<string>, later: Output)
    ensures !AllFit(lines) ==> Shown(lines, later).tooLong
    ensures AllFit(lines) ==>
      |Concat(Shown(lines, later).lines)| <= |Concat(lines)| + |Concat(later.lines)|
    ensures AllFit(lines) && !AllSurvive(lines) ==>
      |Concat(Shown(lines, later).lines)| < |Concat(lines)| + |Concat(later.lines)|
  {
    if lines != [] && |DataPrefix| + |lines[0]| < MaxLine {
      ShownLength(lines[1..], later);
      var tail := Shown(lines[1..], later);
      assert Shown(lines, later).lines == [DropCR(lines[0])] + tail.lines;
      assert ([DropCR(lines[0])] + tail.lines)[1..] == tail.lines;
      assert forall i :: 0 < i < |lines| ==> lines[i] == lines[1..][i - 1];
      assert AllFit(lines) <==> AllFit(lines[1..]);
      assert AllSurvive(lines) <==> Survives(lines[0]) && AllSurvive(lines[1..]);
    }
  }

  /** The client shows a stream that ended in full: it does not stop early, and what it
      prints is every byte of the log other than its newlines, once and in order, and
      after them the status. */
  ghost predicate ShownInFull(chunks: seq<string>, status: string) {
    var out := Printed(Body(chunks) + NamedEvent("end", status));
    !out.tooLong && Concat(out.lines) == Bytes(Concat(chunks)) + status
  }

  /** ... exactly when every line of every chunk survives; the lines then arrive as they were cut. */
  lemma StreamRoundTrip(chunks: seq<string>, status: string)
    requires LF !in status && CR !in status && |status| + 6 < MaxLine
    ensures ShownInFull(chunks, status) <==> AllSurvive(Lines(chunks))
    ensures AllSurvive(Lines(chunks)) ==>
      Printed(Body(chunks) + NamedEvent("end", status)) == Output(Lines(chunks) + [status], false)
  {
    hide Printed, AllSurvive, Shown, Lines, AllFit, Bytes;
    var lines, end := Lines(chunks), Output([status], false);
    PrintedEvent("end", status);
    PrintedBody(chunks, NamedEvent("end", status));
    BytesOfLines(chunks);
    ShownUnchanged(lines, end);
    ShownLength(lines, end);
    ConcatOfConcat(lines, [status]);
    ConcatOne(status);
  }

  // ----------------------------------- whatever the times of the polls were

  /** No stretch of the log without a newline is too long for the client. */
  ghost predicate Fits(log: string) {
    forall i, j :: 0 <= i <= j <= |log| && LF !in log[i..j] ==> |DataPrefix| + (j - i) < MaxLine
  }

  /** Each line of a text is a stretch of it. */
  lemma {:induction false} LineIsStretch(s: string, k: nat) returns (i: nat, j: nat)
    requires k < |Split(s)|
    ensures i <= j <= |s| && s[i..j] == Split(s)[k] && LF !in s[i..j]
    ensures k == 0 ==> i == 0
  {
    JoinOfSplit(s);
    if s == "" {
      i, j := 0, 0;
    } else if k == 0 {
      if s[0] == LF {
        i, j := 0, 0;
      } else {
        i, j := LineIsStretch(s[1..], 0);
        i, j := 0, j + 1;
      }
    } else {
      i, j := LineIsStretch(s[1..], if s[0] == LF then k - 1 else k);
      assert s[i + 1..j + 1] == s[1..][i..j];
      i, j := i + 1, j + 1;
    }
  }

  /** Each stretch without newlines lies in one line. */
  lemma {:induction false} StretchInLine(s: string, i: nat, j: nat) returns (k: nat)
    requires i <= j <= |s| && LF !in s[i..j]
    ensures k < |Split(s)| && j - i <= |Split(s)[k]|
    ensures i == 0 ==> k == 0
    decreases s
  {
    if i == j {
      k := 0;
    } else if i == 0 {
      assert s[0] == s[0..j][0];
      assert s[1..][0..j - 1] == s[0..j][1..];
      k := StretchInLine(s[1..], 0, j - 1);
    } else {
      assert s[1..][i - 1..j - 1] == s[i..j];
      k := StretchInLine(s[1..], i - 1, j - 1);
      if s[0] == LF { k := k + 1; }
    }
  }

  lemma FitsIffLinesFit(s: string)
    ensures Fits(s) <==> AllFit(Split(TrimRight(s)))
  {
    var t := TrimRight(s);
    hide Split, TrimRight;
    if Fits(s) {
      forall k | 0 <= k < |Split(t)| ensures |DataPrefix| + |Split(t)[k]| < MaxLine {
        var i, j := LineIsStretch(t, k);
        assert s[i..j] == t[i..j];
      }
    }
    if AllFit(Split(t)) {
      forall i, j | 0 <= i <= j <= |s| && LF !in s[i..j] ensures |DataPrefix| + (j - i) < MaxLine {
        if i < j {
          assert s[i..j][j - 1 - i] == s[j - 1];
          assert t[i..j] == s[i..j];
          var k := StretchInLine(t, i, j);
        }
      }
    }
  }

  lemma SliceOfSlice(s: string, from: nat, to: nat, i: nat, j: nat)
    requires from <= to <= |s| && i <= j <= to - from
    ensures s[from..to][i..j] == s[from + i..from + j]
  {
    assert forall k :: 0 <= k < j - i ==> s[from..to][i..j][k] == s[from + i + k];
  }

  lemma FitsPart(log: string, from: nat, to: nat)
    requires Fits(log) && from <= to <= |log|
    ensures Fits(log[from..to])
  {
    forall i, j | 0 <= i <= j <= |log[from..to]| && LF !in log[from..to][i..j]
      ensures |DataPrefix| + (j - i) < MaxLine
    {
      SliceOfSlice(log, from, to, i, j);
      assert LF !in log[from + i..from + j];
    }
  }

  lemma ChunkSurvives(chunk: string)
    requires CR !in chunk && Fits(chunk)
    ensures AllSurvive(Split(TrimRight(chunk)))
  {
    FitsIffLinesFit(chunk);
    var t := TrimRight(chunk);
    hide TrimRight, Fits, Split;
    forall k | 0 <= k < |Split(t)| ensures Survives(Split(t)[k]) {
      var i, j := LineIsStretch(t, k);
      if i < j { assert t[i..j][j - i - 1] == t[j - 1]; }
    }
  }

  lemma {:induction false} ChunksSurvive(chunks: seq<string>)
    requires CR !in Concat(chunks) && Fits(Concat(chunks))
    ensures AllSurvive(Lines(chunks))
  {
    if chunks != [] {
      var all, first, rest := Concat(chunks), chunks[0], Concat(chunks[1..]);
      assert first == all[0..|first|] && rest == all[|first|..|all|];
      FitsPart(all, 0, |first|);
      FitsPart(all, |first|, |all|);
      hide Fits, Split, TrimRight;
      ChunkSurvives(first);
      ChunksSurvive(chunks[1..]);
    }
  }

  /** One way to cut a log into the non-empty chunks that polls may find. */
  predicate IsCut(chunks: seq<string>, log: string) {
    Concat(chunks) == log && forall i :: 0 <= i < |chunks| ==> chunks[i] != ""
  }

  /** A cut right behind a carriage return loses it. */
  lemma CutAtReturn(log: string, k: nat) returns (chunks: seq<string>)
    requires k < |log| && log[k] == CR
    ensures IsCut(chunks, log) && !AllSurvive(Lines(chunks))
  {
    var first, rest := log[..k + 1], log[k + 1..];
    chunks := if rest == "" then [first] else [first, rest];
    assert first + rest == log;
    if rest == "" { ConcatOne(first); } else { ConcatTwo(first, rest); }
    assert TrimRight(first) == first;
    JoinOfSplit(first);
    var lines := Split(first);
    JoinEnds(lines);
    assert Lines(chunks)[|lines| - 1] == lines[|lines| - 1];
  }

  lemma {:induction false} JoinEnds(lines: seq<string>)
    requires Join(lines) != "" && Join(lines)[|Join(lines)| - 1] != LF
    ensures lines != [] && lines[|lines| - 1] != ""
    ensures lines[|lines| - 1][|lines[|lines| - 1]| - 1] == Join(lines)[|Join(lines)| - 1]
  {
    if |lines| > 1 {
      var tail := Join(lines[1..]);
      assert Join(lines) == lines[0] + [LF] + tail;
      assert tail != "";
      JoinEnds(lines[1..]);
    }
  }

  /** A log is shown in full however the polls happened to cut it, if and only if it
      holds no carriage return and no stretch of it is too long for the client. */
  lemma ShownInFullWhateverTheCut(log: string, status: string)
    requires LF !in status && CR !in status && |status| + 6 < MaxLine
    ensures (forall chunks :: IsCut(chunks, log) ==> ShownInFull(chunks, status)) <==> CR !in log && Fits(log)
  {
    hide ShownInFull, AllSurvive, Fits, Split, TrimRight, Lines;
    if CR !in log && Fits(log) {
      forall chunks | IsCut(chunks, log) ensures ShownInFull(chunks, status) {
        ChunksSurvive(chunks);
        StreamRoundTrip(chunks, status);
      }
    } else if CR in log {
      var k :| 0 <= k < |log| && log[k] == CR;
      var chunks := CutAtReturn(log, k);
      StreamRoundTrip(chunks, status);
    } else {
      WholeLog(log);
      StreamRoundTrip([log], status);
    }
  }

  lemma EmptyFits()
    ensures Fits("")
  {}

  lemma WholeLog(log: string)
    requires !Fits(log)
    ensures IsCut([log], log) && !AllSurvive(Lines([log]))
  {
    EmptyFits();
    FitsIffLinesFit(log);
    assert [log][1..] == [];
    assert Lines([log]) == Split(TrimRight(log));
  }
}
