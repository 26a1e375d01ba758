/** From the files on disk to the rebuilt database: what replay collects from each series' directory entries
    (crates/aver-core/src/replay.rs) holds the records a live run wrote, wherever rotation cut them. */
module DiskReplay {
  import opened Prelude
  import opened Records
  import opened Writers
  import opened Runs
  import opened ReplayTheorem
  import opened SeriesFiles
  import opened Replay
  import opened LogAhead
  import opened Recovery
  import Rotation

  type Bytes = SeriesFiles.Line

  /** How a line's bytes parse; the JSON codec itself is not part of this model. */
  type Parser = Bytes -> Replay.Line

  function Parsed(parse: Parser, lines: seq<Bytes>): (r: seq<Replay.Line>)
    ensures |r| == |lines| && forall i :: 0 <= i < |lines| ==> r[i] == parse(lines[i])
  {
    seq(|lines|, i requires 0 <= i < |lines| => parse(lines[i]))
  }

  /** An archive that breaks off can be read up to the break. */
  function ArchiveLines(parse: Parser, a: Archive): seq<Replay.Line> {
    Parsed(parse, a.lines) + if a.complete then [] else [Unreadable]
  }

  /** collect_replay_inputs for one series: archives in numeric order, then the active file. */
  function ArchiveInputs(f: Files, series: string, parse: Parser, n: nat): seq<LogFile> {
    if n == 0 then []
    else ArchiveInputs(f, series, parse, n - 1)
         + if n - 1 in f.gz
           then [LogFile(series + "." + Digits(n - 1) + ".jsonl.gz", ArchiveLines(parse, f.gz[n - 1]))] else []
  }

  function SeriesInputs(f: Files, series: string, parse: Parser): seq<LogFile> {
    ArchiveInputs(f, series, parse, Top(f.gz.Keys))
    + if f.active.Some? then [LogFile(series + ".jsonl", Parsed(parse, f.active.value))] else []
  }

  function LinesOfFiles(files: seq<LogFile>): seq<Replay.Line>
    decreases |files|
  {
    if files == [] then [] else LinesOfFiles(files[..|files| - 1]) + files[|files| - 1].lines
  }

  lemma {:induction false} LinesOfTwo(a: seq<LogFile>, b: seq<LogFile>)
    ensures LinesOfFiles(a + b) == LinesOfFiles(a) + LinesOfFiles(b)
    decreases |b|
  {
    if b == [] {
      assert a + b == a;
    } else {
      assert (a + b)[..|a + b| - 1] == a + b[..|b| - 1];
      LinesOfTwo(a, b[..|b| - 1]);
    }
  }

  lemma OneFile(file: LogFile)
    ensures LinesOfFiles([file]) == file.lines
  {
    assert [file][..0] == [];
  }

  lemma ParsedTwo(parse: Parser, a: seq<Bytes>, b: seq<Bytes>)
    ensures Parsed(parse, a + b) == Parsed(parse, a) + Parsed(parse, b)
  {
  }

  lemma {:induction false} ArchivesRead(f: Files, series: string, parse: Parser, n: nat)
    requires ArchivesBelow(f, n).Some?
    ensures LinesOfFiles(ArchiveInputs(f, series, parse, n)) == Parsed(parse, ArchivesBelow(f, n).value)
  {
    if n > 0 {
      ArchivesRead(f, series, parse, n - 1);
      if n - 1 in f.gz {
        var file := LogFile(series + "." + Digits(n - 1) + ".jsonl.gz", ArchiveLines(parse, f.gz[n - 1]));
        LinesOfTwo(ArchiveInputs(f, series, parse, n - 1), [file]);
        OneFile(file);
        ParsedTwo(parse, ArchivesBelow(f, n - 1).value, f.gz[n - 1].lines);
      } else {
        assert ArchiveInputs(f, series, parse, n) == ArchiveInputs(f, series, parse, n - 1);
      }
    }
  }

  /** The collected files hold the replay input of the series, line by line. */
  lemma SeriesRead(f: Files, series: string, parse: Parser)
    requires ReplayInput(f).Some?
    ensures LinesOfFiles(SeriesInputs(f, series, parse)) == Parsed(parse, ReplayInput(f).value)
  {
    var archives := ArchiveInputs(f, series, parse, Top(f.gz.Keys));
    ArchivesRead(f, series, parse, Top(f.gz.Keys));
    ParsedTwo(parse, ArchivesBelow(f, Top(f.gz.Keys)).value, ActiveLines(f));
    if f.active.Some? {
      var file := LogFile(series + ".jsonl", Parsed(parse, f.active.value));
      LinesOfTwo(archives, [file]);
      OneFile(file);
    } else {
      assert SeriesInputs(f, series, parse) == archives;
    }
  }

  lemma {:induction false} FilesOfParsedLines(files: seq<LogFile>)
    requires AllParsed(LinesOfFiles(files))
    ensures FilesParsed(files) && RecordsOfFiles(files) == RecordsOf(LinesOfFiles(files))
    decreases |files|
  {
    if files != [] {
      var front, last := files[..|files| - 1], files[|files| - 1];
      var a, b := LinesOfFiles(front), last.lines;
      ParsedParts(a, b);
      FilesOfParsedLines(front);
      RecordsOfTwo(a, b);
      assert files == front + [last];
    }
  }

  lemma ParsedParts(a: seq<Replay.Line>, b: seq<Replay.Line>)
    requires AllParsed(a + b)
    ensures AllParsed(a) && AllParsed(b)
  {
    assert forall i :: 0 <= i < |a| ==> (a + b)[i] == a[i];
    assert forall i :: 0 <= i < |b| ==> (a + b)[|a| + i] == b[i];
  }

  lemma {:induction false} RecordsOfTwo(a: seq<Replay.Line>, b: seq<Replay.Line>)
    requires AllParsed(a) && AllParsed(b)
    ensures AllParsed(a + b) && RecordsOf(a + b) == RecordsOf(a) + RecordsOf(b)
    decreases |b|
  {
    if b == [] {
      assert a + b == a;
    } else {
      assert (a + b)[..|a + b| - 1] == a + b[..|b| - 1];
      RecordsOfTwo(a, b[..|b| - 1]);
    }
  }

  /** The bytes a run of append_jsonl leaves: one line a record, as the codec writes it. */
  function Encoded(encode: LogRecord -> Bytes, records: seq<LogRecord>): (r: seq<Bytes>)
    ensures |r| == |records| && forall i :: 0 <= i < |records| ==> r[i] == encode(records[i])
  {
    seq(|records|, i requires 0 <= i < |records| => encode(records[i]))
  }

  /** The codec gives these records back as they were. */
  ghost predicate Lossless(encode: LogRecord -> Bytes, parse: Parser, records: seq<LogRecord>) {
    forall i :: 0 <= i < |records| ==> parse(encode(records[i])) == Replay.Line.Parsed(records[i])
  }

  lemma {:induction false} EncodedParses(encode: LogRecord -> Bytes, parse: Parser, records: seq<LogRecord>)
    requires Lossless(encode, parse, records)
    ensures AllParsed(Parsed(parse, Encoded(encode, records)))
    ensures RecordsOf(Parsed(parse, Encoded(encode, records))) == records
    decreases |records|
  {
    if records != [] {
      var front := records[..|records| - 1];
      EncodedParses(encode, parse, front);
      var lines := Parsed(parse, Encoded(encode, records));
      assert lines[..|lines| - 1] == Parsed(parse, Encoded(encode, front));
      assert lines[|lines| - 1] == Replay.Line.Parsed(records[|records| - 1]);
    }
  }

  /** The series holds the records, and recovery has run since the last crash. */
  ghost predicate Holds(f: Files, encode: LogRecord -> Bytes, records: seq<LogRecord>) {
    Contents(f) == Encoded(encode, records) && ReplayInput(f) == Some(Contents(f))
  }

  lemma SeriesHoldsRecords(f: Files, series: string, encode: LogRecord -> Bytes, parse: Parser, records: seq<LogRecord>)
    requires Lossless(encode, parse, records) && Holds(f, encode, records)
    ensures AllParsed(LinesOfFiles(SeriesInputs(f, series, parse)))
    ensures RecordsOf(LinesOfFiles(SeriesInputs(f, series, parse))) == records
  {
    SeriesRead(f, series, parse);
    EncodedParses(encode, parse, records);
  }

  /** collect_replay_inputs: the series in their fixed order. */
  function ReplayInputs(log: Files, events: Files, observations: Files, parse: Parser): seq<LogFile> {
    SeriesInputs(log, "log", parse) + SeriesInputs(events, "events", parse)
    + SeriesInputs(observations, "observations", parse)
  }

  /** What the directory holds once recovery has run. */
  lemma FilesHoldRun(t: Live, log: Files, events: Files, observations: Files, encode: LogRecord -> Bytes, parse: Parser)
    requires Lossless(encode, parse, ReplayOrder(t))
    requires Holds(log, encode, t.log) && Holds(events, encode, t.events) && Holds(observations, encode, t.observations)
    ensures var files := ReplayInputs(log, events, observations, parse);
            FilesParsed(files) && RecordsOfFiles(files) == ReplayOrder(t)
  {
    LosslessParts(encode, parse, t);
    SeriesHoldsRecords(log, "log", encode, parse, t.log);
    SeriesHoldsRecords(events, "events", encode, parse, t.events);
    SeriesHoldsRecords(observations, "observations", encode, parse, t.observations);
    ThreeSeries(SeriesInputs(log, "log", parse), SeriesInputs(events, "events", parse),
                SeriesInputs(observations, "observations", parse));
  }

  /** From disk to database: after any run of live calls whose lines all applied, once recovery has run, replay
      of what the directory holds rebuilds the live database, in both modes and with an empty quarantine. */
  lemma DiskRebuildsLiveRun(s: Live, ops: seq<Op>, log: Files, events: Files, observations: Files,
                            encode: LogRecord -> Bytes, parse: Parser)
    requires Fresh(s) && Succeeds(s, ops) && Lossless(encode, parse, ReplayOrder(Run(s, ops)))
    requires Holds(log, encode, Run(s, ops).log) && Holds(events, encode, Run(s, ops).events)
    requires Holds(observations, encode, Run(s, ops).observations)
    ensures var files := ReplayInputs(log, events, observations, parse);
            var after := AfterFiles(Strict, Running(s.db, EmptyReport), files);
            && after.Running? && after.db == Run(s, ops).db && after.report.quarantined == []
            && AfterFiles(Lenient, Running(s.db, EmptyReport), files) == after
  {
    FilesHoldRun(Run(s, ops), log, events, observations, encode, parse);
    FilesRebuildLiveRun(s, ops, ReplayInputs(log, events, observations, parse));
  }

  /** And after any run at all, failed calls included. */
  lemma DiskReplaysExactly(s: Live, ops: seq<Op>, log: Files, events: Files, observations: Files,
                           encode: LogRecord -> Bytes, parse: Parser)
    requires Fresh(s) && Grounded(s.db.core) && Lossless(encode, parse, ReplayOrder(Run(s, ops)))
    requires Holds(log, encode, Run(s, ops).log) && Holds(events, encode, Run(s, ops).events)
    requires Holds(observations, encode, Run(s, ops).observations)
    ensures ReplaysExactly(s, ops, ReplayInputs(log, events, observations, parse))
  {
    FilesHoldRun(Run(s, ops), log, events, observations, encode, parse);
    FilesReplayExactly(s, ops, ReplayInputs(log, events, observations, parse));
  }

  // ----- whatever appenders, rotators and crashes did to the files -----

  /** What the processes on one series did, in any interleaving and crashing anywhere: up to a recovery that has
      just swept the directory, and since. */
  datatype SeriesRun = SeriesRun(start: Rotation.System, before: seq<Rotation.Event>, since: seq<Rotation.Event>) {
    ghost function Recovered(): Rotation.System { Rotation.Run(start, before) }

    ghost function End(): Rotation.System { Rotation.Run(Recovered(), since) }

    ghost function Directory(): Files { Rotation.View(End().disk) }

    /** Since the sweep no holder of the lock has crashed, and none is under way. */
    ghost predicate Swept() {
      && Rotation.Initial(start)
      && (exists p :: Rotation.ProcOf(Recovered(), p) == Rotation.Exclusive(Rotation.Sweeping({}, {})))
      && Rotation.HoldersSurvive(Recovered(), since)
      && (since == [] || Rotation.NoneExclusive(End()))
    }

    /** The lines it wrote, in the order of the writes. */
    ghost function Wrote(): seq<Bytes> { Rotation.Lines(End().history) }
  }

  lemma SweptHolds(r: SeriesRun, encode: LogRecord -> Bytes, records: seq<LogRecord>)
    requires r.Swept() && r.Wrote() == Encoded(encode, records)
    ensures Holds(r.Directory(), encode, records)
  {
    var p :| Rotation.ProcOf(r.Recovered(), p) == Rotation.Exclusive(Rotation.Sweeping({}, {}));
    Rotation.RunKeepsInv(r.start, r.before);
    Rotation.RunKeepsInv(r.Recovered(), r.since);
    if r.since == [] {
      Rotation.RecoveryLeavesAllReadable(r.start, r.before, p);
    } else {
      Rotation.ReadableFromRecoveryOn(r.start, r.before, p, r.since);
    }
  }

  /** From calls to files and back, over every interleaving of appenders, rotators and recoveries with crashes
      anywhere: if the processes on each series wrote the lines a run of live calls logged, then from the sweep of
      a recovery on, until a holder of the lock crashes again, replay of what the directories hold is exact in
      both modes. */
  lemma CrashedDiskReplaysExactly(s: Live, ops: seq<Op>, log: SeriesRun, events: SeriesRun, observations: SeriesRun,
                                  encode: LogRecord -> Bytes, parse: Parser)
    requires Fresh(s) && Grounded(s.db.core) && Lossless(encode, parse, ReplayOrder(Run(s, ops)))
    requires log.Swept() && log.Wrote() == Encoded(encode, Run(s, ops).log)
    requires events.Swept() && events.Wrote() == Encoded(encode, Run(s, ops).events)
    requires observations.Swept() && observations.Wrote() == Encoded(encode, Run(s, ops).observations)
    ensures ReplaysExactly(s, ops, ReplayInputs(log.Directory(), events.Directory(), observations.Directory(), parse))
  {
    SweptHolds(log, encode, Run(s, ops).log);
    SweptHolds(events, encode, Run(s, ops).events);
    SweptHolds(observations, encode, Run(s, ops).observations);
    DiskReplaysExactly(s, ops, log.Directory(), events.Directory(), observations.Directory(), encode, parse);
  }

  lemma LosslessParts(encode: LogRecord -> Bytes, parse: Parser, t: Live)
    requires Lossless(encode, parse, ReplayOrder(t))
    ensures Lossless(encode, parse, t.log) && Lossless(encode, parse, t.events)
            && Lossless(encode, parse, t.observations)
  {
    LosslessBoth(encode, parse, t.log + t.events, t.observations);
    LosslessBoth(encode, parse, t.log, t.events);
  }

  lemma LosslessBoth(encode: LogRecord -> Bytes, parse: Parser, a: seq<LogRecord>, b: seq<LogRecord>)
    requires Lossless(encode, parse, a + b)
    ensures Lossless(encode, parse, a) && Lossless(encode, parse, b)
  {
    assert forall i :: 0 <= i < |a| ==> (a + b)[i] == a[i];
    assert forall i :: 0 <= i < |b| ==> (a + b)[|a| + i] == b[i];
  }

  lemma ThreeSeries(a: seq<LogFile>, b: seq<LogFile>, c: seq<LogFile>)
    requires AllParsed(LinesOfFiles(a)) && AllParsed(LinesOfFiles(b)) && AllParsed(LinesOfFiles(c))
    ensures FilesParsed(a + b + c)
    ensures RecordsOfFiles(a + b + c) ==
            RecordsOf(LinesOfFiles(a)) + RecordsOf(LinesOfFiles(b)) + RecordsOf(LinesOfFiles(c))
  {
    LinesOfTwo(a, b);
    LinesOfTwo(a + b, c);
    RecordsOfTwo(LinesOfFiles(a), LinesOfFiles(b));
    RecordsOfTwo(LinesOfFiles(a) + LinesOfFiles(b), LinesOfFiles(c));
    FilesOfParsedLines(a + b + c);
  }
}
