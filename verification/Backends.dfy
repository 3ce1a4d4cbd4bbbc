/** The local backend of agentorg/log.py and agentorg/gates.py, files under runs/, and when
    it and the dynamodb backend cannot be told apart. */
module Backends {
  import opened Prelude
  import opened Text
  import opened Tables
  import opened LogStore

  /** `logs` are the .jsonl files, `states` the .state.json files, by run id. */
  datatype Files = Files(logs: map<string, string>, states: map<string, string>)

  function LogText(f: Files, runId: string): string {
    if runId in f.logs then f.logs[runId] else ""
  }

  function WrittenToDisk(f: Files, write: Write, codec: Codec): Files {
    if !IsSafeRunId(Target(write)) then f
    else
      match write
      case Append(e) => f.(logs := f.logs[e.runId := LogText(f, e.runId) + (codec.line(e) + "\n")])
      case Save(runId, document) => f.(states := f.states[runId := document])
  }

  function DiskAfter(history: seq<Write>, codec: Codec): Files {
    if history == [] then Files(map[], map[])
    else WrittenToDisk(DiskAfter(history[..|history| - 1], codec), history[|history| - 1], codec)
  }

  function ParseAll(lines: seq<string>, codec: Codec): Result<seq<LogEvent>> {
    if lines == [] then Ok([])
    else
      match codec.parse(lines[0])
      case Raised => Raised
      case Ok(e) => Prepend(e, ParseAll(lines[1..], codec))
  }

  /** `read` of the file a run's log is kept in; a run without one has no events. */
  function ReadFile(f: Files, runId: string, codec: Codec): Result<seq<LogEvent>> {
    if !IsSafeRunId(runId) then Raised else ParseAll(SplitLines(LogText(f, runId)), codec)
  }

  class Disk {
    var logs: map<string, string>
    var states: map<string, string>

    function Contents(): Files
      reads this
    {
      Files(logs, states)
    }

    constructor ()
      ensures Contents() == Files(map[], map[])
    {
      logs, states := map[], map[];
    }

    method AppendEvent(event: LogEvent, codec: Codec) returns (r: Result<LogEvent>)
      modifies this
      ensures Contents() == WrittenToDisk(old(Contents()), Append(event), codec)
      ensures r == if IsSafeRunId(event.runId) then Ok(event) else Raised
    {
      if !IsSafeRunId(event.runId) {
        return Raised;
      }
      logs := logs[event.runId := LogText(Contents(), event.runId) + (codec.line(event) + "\n")];
      return Ok(event);
    }

    method Read(runId: string, codec: Codec) returns (r: Result<seq<LogEvent>>)
      ensures r == ReadFile(Contents(), runId, codec)
    {
      if !IsSafeRunId(runId) {
        return Raised;
      }
      if runId !in logs {
        return Ok([]);
      }
      return ParseAll(SplitLines(logs[runId]), codec);
    }

    method SaveState(runId: string, document: string, codec: Codec) returns (saved: bool)
      modifies this
      ensures Contents() == WrittenToDisk(old(Contents()), Save(runId, document), codec)
      ensures saved == IsSafeRunId(runId)
    {
      if !IsSafeRunId(runId) {
        return false;
      }
      states := states[runId := document];
      return true;
    }
  }

  // ----- the files after a history ----------------------------------------

  ghost predicate OneLined(codec: Codec) {
    forall e: LogEvent :: OneLine(codec.line(e))
  }

  function Lines(events: seq<LogEvent>, codec: Codec): seq<string> {
    if events == [] then [] else [codec.line(events[0])] + Lines(events[1..], codec)
  }

  lemma {:induction false} LinesAppend(events: seq<LogEvent>, e: LogEvent, codec: Codec)
    ensures Lines(events + [e], codec) == Lines(events, codec) + [codec.line(e)]
  {
    if events == [] {
      assert events + [e] == [e];
      assert [e][1..] == [];
    } else {
      assert (events + [e])[1..] == events[1..] + [e];
      LinesAppend(events[1..], e, codec);
    }
  }

  lemma {:induction false} LinesAreLines(events: seq<LogEvent>, codec: Codec)
    requires OneLined(codec)
    ensures AllOneLine(Lines(events, codec))
  {
    if events != [] {
      LinesAreLines(events[1..], codec);
    }
  }

  lemma {:induction false} LinesReadBack(events: seq<LogEvent>, codec: Codec)
    requires codec.Faithful()
    ensures ParseAll(Lines(events, codec), codec) == Ok(events)
  {
    if events != [] {
      LinesReadBack(events[1..], codec);
      assert Lines(events, codec)[1..] == Lines(events[1..], codec);
      assert codec.parse(codec.line(events[0])) == Ok(events[0]);
      assert [events[0]] + events[1..] == events;
    }
  }

  lemma UnlinesOneMore(lines: seq<string>, line: string)
    ensures Unlines(lines + [line]) == Unlines(lines) + (line + "\n")
  {
    UnlinesAppend(lines, [line]);
    assert [line][1..] == [];
    assert Unlines([line]) == line + "\n" + Unlines([]) == line + "\n";
  }

  lemma LinesWritten(before: seq<Write>, e: LogEvent, codec: Codec)
    ensures Unlines(Lines(Logged(before + [Append(e)], e.runId), codec))
            == Unlines(Lines(Logged(before, e.runId), codec)) + (codec.line(e) + "\n")
  {
    var events := Logged(before, e.runId);
    assert (before + [Append(e)])[..|before|] == before;
    LinesAppend(events, e, codec);
    UnlinesOneMore(Lines(events, codec), codec.line(e));
  }

  lemma WriteToLog(f: Files, write: Write, runId: string, codec: Codec)
    requires IsSafeRunId(runId)
    ensures LogText(WrittenToDisk(f, write, codec), runId)
            == if write.Append? && write.event.runId == runId then LogText(f, runId) + (codec.line(write.event) + "\n")
               else LogText(f, runId)
  {
  }

  lemma NotWritten(before: seq<Write>, write: Write, runId: string)
    requires write.Append? ==> write.event.runId != runId
    ensures Logged(before + [write], runId) == Logged(before, runId)
  {
    assert (before + [write])[..|before|] == before;
  }

  ghost predicate FileHolds(f: Files, history: seq<Write>, runId: string, codec: Codec) {
    LogText(f, runId) == Unlines(Lines(Logged(history, runId), codec))
  }

  lemma FileHoldsOneMore(f: Files, before: seq<Write>, write: Write, runId: string, codec: Codec)
    requires IsSafeRunId(runId) && FileHolds(f, before, runId, codec)
    ensures FileHolds(WrittenToDisk(f, write, codec), before + [write], runId, codec)
  {
    WriteToLog(f, write, runId, codec);
    if write.Append? && write.event.runId == runId {
      LinesWritten(before, write.event, codec);
    } else {
      NotWritten(before, write, runId);
    }
  }

  lemma {:induction false} LogFileHolds(history: seq<Write>, runId: string, codec: Codec)
    requires IsSafeRunId(runId)
    ensures FileHolds(DiskAfter(history, codec), history, runId, codec)
  {
    if history != [] {
      var before, last := history[..|history| - 1], history[|history| - 1];
      LogFileHolds(before, runId, codec);
      FileHoldsOneMore(DiskAfter(before, codec), before, last, runId, codec);
      assert before + [last] == history;
    }
  }

  lemma {:induction false} StateFileHolds(history: seq<Write>, runId: string, codec: Codec)
    requires IsSafeRunId(runId)
    ensures var f := DiskAfter(history, codec);
      LastDocument(history, runId) == if runId in f.states then Some(f.states[runId]) else None
  {
    if history != [] {
      StateFileHolds(history[..|history| - 1], runId, codec);
    }
  }

  lemma {:induction false} FilesAreSavedRuns(history: seq<Write>, id: string, codec: Codec)
    ensures id in DiskAfter(history, codec).states <==> id in SavedRuns(history)
  {
    if history != [] {
      FilesAreSavedRuns(history[..|history| - 1], id, codec);
    }
  }

  lemma FileGivesTheEvents(history: seq<Write>, runId: string, codec: Codec)
    requires IsSafeRunId(runId) && codec.Faithful() && OneLined(codec)
    ensures ReadFile(DiskAfter(history, codec), runId, codec) == Ok(Logged(history, runId))
  {
    var events := Logged(history, runId);
    LogFileHolds(history, runId, codec);
    LinesAreLines(events, codec);
    SplitUnlines(Lines(events, codec));
    LinesReadBack(events, codec);
  }

  // ----- the backends agree -----------------------------------------------

  /** After any one history the backends load the same document and list the same runs; and
      they read the same log exactly when the run's events were written with increasing
      sort keys. */
  lemma BackendsAgree(history: seq<Write>, runId: string, codec: Codec)
    requires IsSafeRunId(runId) && NoClash(history) && codec.Faithful() && OneLined(codec)
    ensures var table, files := TableAfter(history, codec), DiskAfter(history, codec);
      && (EventsIn(Part(table, runId), codec) == ReadFile(files, runId, codec) <==> Increasing(Logged(history, runId)))
      && Lookup(Part(table, runId), STATE_SORT_KEY)
         == (if runId in files.states then Some(files.states[runId]) else None)
      && (HasKey(Part(table, RUN_INDEX_PARTITION), runId) <==> runId in files.states)
  {
    ReadGivesTheEvents(history, runId, codec);
    FileGivesTheEvents(history, runId, codec);
    KeyOrderIsWritingOrder(Logged(history, runId));
    TableRefines(history, runId, codec);
    StateFileHolds(history, runId, codec);
    IndexHoldsSavedRuns(history, runId, codec);
    FilesAreSavedRuns(history, runId, codec);
  }
}
