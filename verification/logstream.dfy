/** The log stream from the build rows to the terminal: the API's polling loop
    (internal/api/logstream_handlers.go) and, over whole pipeline runs, what the
    command-line client shows of a build. */
module LogStream {
  import opened Basics
  import opened Lifecycle
  import opened Rows
  import opened Pipeline
  import opened Runs
  import opened CompleteLog
  import Sse

  function StatusText(status: BuildStatus): (text: string)
    ensures Sse.LF !in text && Sse.CR !in text && |text| < 10
  {
    match status
    case BuildQueued => "queued"
    case BuildRunning => "running"
    case BuildSucceeded => "succeeded"
    case BuildFailed => "failed"
  }

  /** The response body of a stream. */
  function Wire(s: Session): string {
    Sse.Body(s.chunks) + if s.ended.Some? then Sse.NamedEvent("end", StatusText(s.ended.value)) else ""
  }

  /** A stream after further polls: rows are what BuildByDeployID returned, None for an
      error, which abandons the stream. */
  function Polled(s: Session, rows: seq<Option<Build>>): Session
    decreases |rows|
  {
    if rows == [] || s.ended.Some? || rows[0].None? then s else Polled(Poll(s, rows[0].value), rows[1..])
  }

  lemma {:induction false} BodySnoc(chunks: seq<string>, chunk: string)
    ensures Sse.Body(chunks + [chunk]) == Sse.Body(chunks) + Sse.Chunk(chunk)
  {
    hide Sse.Chunk;
    if chunks == [] {
      assert [chunk][1..] == [];
      assert Sse.Body([chunk][1..]) == "";
    } else {
      BodySnoc(chunks[1..], chunk);
      assert (chunks + [chunk])[1..] == chunks[1..] + [chunk];
    }
  }

  /** handleDeployLogs: one row a tick; the client goes away after the last of them. */
  method HandleDeployLogs(w: Sse.Response, rows: seq<Option<Build>>) returns (s: Session)
    modifies w
    ensures s == Polled(Opened, rows)
    ensures w.body == old(w.body) + Wire(s)
  {
    hide Sse.Chunk, Sse.NamedEvent, StatusText;
    s := Opened;
    var tick := 0;
    while tick < |rows|
      invariant tick <= |rows| && s.ended.None?
      invariant Polled(s, rows[tick..]) == Polled(Opened, rows)
      invariant w.body == old(w.body) + Sse.Body(s.chunks)
    {
      if rows[tick].None? { return; }
      var row := rows[tick].value;
      ghost var before, sent := s, w.body;
      if |row.logs| > s.sent {
        BodySnoc(s.chunks, row.logs[s.sent..]);
        Sse.WriteSse(w, row.logs[s.sent..]);
        s := s.(chunks := s.chunks + [row.logs[s.sent..]], sent := |row.logs|);
      }
      assert w.body == old(w.body) + Sse.Body(s.chunks);
      assert rows[tick..][1..] == rows[tick + 1..];
      if IsTerminalBuild(row.status) {
        w.Write(Sse.NamedEvent("end", StatusText(row.status)));
        s := s.(ended := Some(row.status));
        return;
      }
      tick := tick + 1;
    }
  }

  /** Successive reads of a row whose log only grows, from a log that starts with `from`. */
  predicate Growing(from: string, rows: seq<Build>)
    decreases |rows|
  {
    rows != [] ==> from <= rows[0].logs && Growing(rows[0].logs, rows[1..])
  }

  function Found(rows: seq<Build>): (r: seq<Option<Build>>)
    ensures |r| == |rows| && forall i :: 0 <= i < |r| ==> r[i] == Some(rows[i])
  {
    seq(|rows|, i requires 0 <= i < |rows| => Some(rows[i]))
  }

  lemma PollSendsRow(s: Session, row: Build)
    requires |Concat(s.chunks)| == s.sent && Concat(s.chunks) <= row.logs
    ensures Concat(Poll(s, row).chunks) == row.logs && Poll(s, row).sent == |row.logs|
  {
    if |row.logs| > s.sent {
      ConcatOfConcat(s.chunks, [row.logs[s.sent..]]);
      ConcatOne(row.logs[s.sent..]);
    } else {
      assert row.logs == row.logs[..s.sent];
    }
  }

  /** Of a growing log a stream has, after every poll, sent exactly what that poll read:
      nothing twice and nothing left out, however far the polls are apart. */
  lemma {:induction false} SentIsLastRead(s: Session, rows: seq<Build>)
    requires |Concat(s.chunks)| == s.sent && s.ended.None? && Growing(Concat(s.chunks), rows) && rows != []
    requires forall i :: 0 <= i < |rows| - 1 ==> !IsTerminalBuild(rows[i].status)
    ensures var after, last := Polled(s, Found(rows)), rows[|rows| - 1];
      && Concat(after.chunks) == last.logs
      && after.ended == if last.status == BuildSucceeded || last.status == BuildFailed then Some(last.status) else None
    decreases |rows|
  {
    PollSendsRow(s, rows[0]);
    var next := Poll(s, rows[0]);
    assert Found(rows)[1..] == Found(rows[1..]);
    hide Poll, Found;
    assert Polled(s, Found(rows)) == Polled(next, Found(rows[1..]));
    if |rows| > 1 {
      SentIsLastRead(next, rows[1..]);
    }
  }

  lemma EndedWireShown(s: Session)
    requires s.ended.Some? && Sse.CR !in Concat(s.chunks) && Sse.Fits(Concat(s.chunks))
    ensures var shown := Sse.Printed(Wire(s));
      !shown.tooLong && Concat(shown.lines) == Sse.Bytes(Concat(s.chunks)) + StatusText(s.ended.value)
  {
    hide Sse.Printed, Sse.Fits, Sse.Lines, Sse.Body, Sse.NamedEvent, StatusText, Sse.AllSurvive, Concat, Sse.Bytes;
    Sse.ChunksSurvive(s.chunks);
    Sse.StreamRoundTrip(s.chunks, StatusText(s.ended.value));
  }

  /** From the build backend to the terminal. When a stream has emitted its end event in
      some run of the pipeline, the client shows of it all of the build's log there will
      ever be, and then the build's final status, provided the log holds no carriage
      return and fits the client's scanner. */
  lemma ClientShowsWholeLog(acts: seq<Action>, more: seq<Action>, t: nat, b: nat)
    requires t in Exec(1, acts).tasks && Exec(1, acts).tasks[t].Stream?
    requires Exec(1, acts).tasks[t].session.ended.Some?
    requires IsBuildOf(Table(acts + more), b, Exec(1, acts).tasks[t].id)
    requires Sse.CR !in Table(acts + more).builds[b].logs && Sse.Fits(Table(acts + more).builds[b].logs)
    ensures var build := Table(acts + more).builds[b];
      var shown := Sse.Printed(Wire(Exec(1, acts).tasks[t].session));
      && !shown.tooLong
      && (build.status == BuildSucceeded || build.status == BuildFailed)
      && (build.status == BuildSucceeded ==> Concat(shown.lines) == Sse.Bytes(build.logs) + "succeeded")
      && (build.status == BuildFailed ==> Concat(shown.lines) == Sse.Bytes(build.logs) + "failed")
  {
    CompleteLogAtEnd(acts, more, t, b);
    var s := Exec(1, acts).tasks[t].session;
    EndTexts();
    assert IsTerminalBuild(s.ended.value) ==> s.ended.value == BuildSucceeded || s.ended.value == BuildFailed;
    hide *;
    EndedWireShown(s);
  }

  lemma EndTexts()
    ensures StatusText(BuildSucceeded) == "succeeded" && StatusText(BuildFailed) == "failed"
  {
  }
}
