/** Rebuilding the database from log files (crates/aver-core/src/replay.rs): one savepoint
    per line, strict or lenient. A line of text is modelled by what parsing it yields. */
module Replay {
  import opened Prelude
  import opened Records
  import opened Projection
  import opened Writers
  import opened Runs
  import opened ReplayTheorem
  import opened Connection

  /** Unreadable: the bytes are not UTF-8, or the archive breaks off; the reader fails before any mode decides. */
  datatype Line = BlankLine | Unreadable | UnknownKind | Malformed | Parsed(record: LogRecord)

  datatype LogFile = LogFile(path: string, lines: seq<Line>)

  datatype Mode = Strict | Lenient

  datatype Fault = Refused(error: Projection.Error) | NotAKind | NotARecord | NotText

  datatype Quarantine = Quarantine(path: string, line: nat, fault: Fault)

  datatype Report = Report(
    claims: nat, hyperedges: nat, events: nat, observations: nat, vectorChunks: nat,
    filesWalked: nat, lifecycle: nat, quarantined: seq<Quarantine>)

  const EmptyReport := Report(0, 0, 0, 0, 0, 0, 0, [])

  /** A run of replay is under way, or it met an unreadable line, or a strict one met a bad line. */
  datatype Progress = Running(db: Database, report: Report) | Aborted(fault: Fault)

  function Count(report: Report, r: LogRecord): Report {
    match r
    case AddClaim(_, _, _, _, _, _, _, _, _, _, _) => report.(claims := report.claims + 1)
    case AddHyperedge(_, _, _, _, _, _, _) => report.(hyperedges := report.hyperedges + 1)
    case RecordEvent(_, _, _, _, _, _, _, _, _) => report.(events := report.events + 1)
    case RecordObservation(_, _, _, _, _, _, _, _, _, _) => report.(observations := report.observations + 1)
    case AddVectorChunk(_, _, _, _, _, _) => report.(vectorChunks := report.vectorChunks + 1)
    case EmbedVectorChunk(_, _, _) => report.(vectorChunks := report.vectorChunks + 1)
    case PruneObservations(_, _, _, _) => report
    case _ => report.(lifecycle := report.lifecycle + 1)
  }

  /** Parsing and applying one line, before any savepoint decides. */
  ghost function TryLine(db: Database, line: Line): Result<(Database, Applied), Fault>
    requires line != BlankLine && line != Unreadable
  {
    match line
    case UnknownKind => Err(NotAKind)
    case Malformed => Err(NotARecord)
    case Parsed(r) =>
      match ApplyRecord(db, r).result
      case Err(e) => Err(Refused(e))
      case Ok(applied) => Ok((ApplyRecord(db, r).state, applied))
  }

  ghost function AfterLine(mode: Mode, p: Progress, path: string, number: nat, line: Line): Progress {
    if p.Aborted? || line == BlankLine then p
    else if line == Unreadable then Aborted(NotText)
    else match TryLine(p.db, line)
      case Ok((db, applied)) => Running(db, if applied == Applied then Count(p.report, line.record) else p.report)
      case Err(fault) =>
        match mode
        case Strict => Aborted(fault)
        case Lenient => Running(p.db,
                                p.report.(quarantined := p.report.quarantined + [Quarantine(path, number, fault)]))
  }

  ghost function AfterLines(mode: Mode, p: Progress, path: string, lines: seq<Line>): Progress
    decreases |lines|
  {
    if lines == [] then p
    else AfterLine(mode, AfterLines(mode, p, path, lines[..|lines| - 1]), path, |lines|, lines[|lines| - 1])
  }

  ghost function OpenFile(p: Progress): Progress {
    if p.Running? then p.(report := p.report.(filesWalked := p.report.filesWalked + 1)) else p
  }

  ghost function AfterFiles(mode: Mode, p: Progress, files: seq<LogFile>): Progress
    decreases |files|
  {
    if files == [] then p
    else
      var file := files[|files| - 1];
      AfterLines(mode, OpenFile(AfterFiles(mode, p, files[..|files| - 1])), file.path, file.lines)
  }

  lemma {:induction false} AbortedLines(mode: Mode, p: Progress, path: string, lines: seq<Line>)
    requires p.Aborted?
    ensures AfterLines(mode, p, path, lines) == p
    decreases |lines|
  {
    if lines != [] { AbortedLines(mode, p, path, lines[..|lines| - 1]); }
  }

  lemma {:induction false} LinesFromPrefix(mode: Mode, p: Progress, path: string, lines: seq<Line>, k: nat)
    requires k <= |lines| && AfterLines(mode, p, path, lines[..k]).Aborted?
    ensures AfterLines(mode, p, path, lines) == AfterLines(mode, p, path, lines[..k])
    decreases |lines|
  {
    if k == |lines| {
      assert lines[..k] == lines;
    } else {
      assert lines[..|lines| - 1][..k] == lines[..k];
      LinesFromPrefix(mode, p, path, lines[..|lines| - 1], k);
    }
  }

  lemma LineAdded(mode: Mode, p: Progress, path: string, lines: seq<Line>, n: nat)
    requires n < |lines|
    ensures AfterLines(mode, p, path, lines[..n + 1]) ==
              AfterLine(mode, AfterLines(mode, p, path, lines[..n]), path, n + 1, lines[n])
  {
    assert lines[..n + 1][..n] == lines[..n];
  }

  lemma {:induction false} FilesFromPrefix(mode: Mode, p: Progress, files: seq<LogFile>, k: nat)
    requires k <= |files| && AfterFiles(mode, p, files[..k]).Aborted?
    ensures AfterFiles(mode, p, files) == AfterFiles(mode, p, files[..k])
    decreases |files|
  {
    if k == |files| {
      assert files[..k] == files;
    } else {
      var rest := files[..|files| - 1];
      assert rest[..k] == files[..k];
      FilesFromPrefix(mode, p, rest, k);
      AbortedLines(mode, AfterFiles(mode, p, rest), files[|files| - 1].path, files[|files| - 1].lines);
    }
  }

  /** apply_log_line inside its savepoint: rows written by a failing line are rolled back. */
  method ReplayLine(conn: Connection, line: Line, report: Report) returns (result: Result<Report, Fault>)
    requires conn.Valid() && line != BlankLine && line != Unreadable
    modifies conn, conn.predicates
    ensures conn.Valid()
    ensures match TryLine(old(conn.Snapshot()), line)
            case Ok((db, applied)) =>
              conn.Snapshot() == db && result == Ok(if applied == Applied then Count(report, line.record) else report)
            case Err(fault) => conn.Snapshot() == old(conn.Snapshot()) && result == Err(fault)
  {
    match line {
      case UnknownKind => return Err(NotAKind);
      case Malformed => return Err(NotARecord);
      case Parsed(r) =>
        var savepoint := conn.Snapshot();
        var applied := conn.Apply(r);
        if applied.Err? {
          conn.Restore(savepoint);
          return Err(Refused(applied.error));
        }
        return Ok(if applied.value == Applied then Count(report, r) else report);
    }
  }

  /** The inner loop: one file, line by line; lines are numbered from 1. */
  method ReplayFile(conn: Connection, file: LogFile, mode: Mode, before: Report) returns (result: Result<Report, Fault>)
    requires conn.Valid()
    modifies conn, conn.predicates
    ensures conn.Valid()
    ensures match AfterLines(mode, Running(old(conn.Snapshot()), before), file.path, file.lines)
            case Running(db, report) => result == Ok(report) && conn.Snapshot() == db
            case Aborted(fault) => result == Err(fault)
  {
    var report := before;
    ghost var start := Running(conn.Snapshot(), before);
    for n := 0 to |file.lines|
      invariant conn.Valid()
      invariant AfterLines(mode, start, file.path, file.lines[..n]) == Running(conn.Snapshot(), report)
    {
      LineAdded(mode, start, file.path, file.lines, n);
      if file.lines[n] == Unreadable {
        LinesFromPrefix(mode, start, file.path, file.lines, n + 1);
        return Err(NotText);
      }
      if file.lines[n] == BlankLine { continue; }
      var outcome := ReplayLine(conn, file.lines[n], report);
      match outcome {
        case Ok(counted) => report := counted;
        case Err(fault) =>
          if mode == Strict {
            LinesFromPrefix(mode, start, file.path, file.lines, n + 1);
            return Err(fault);
          }
          report := report.(quarantined := report.quarantined + [Quarantine(file.path, n + 1, fault)]);
      }
    }
    assert file.lines[..|file.lines|] == file.lines;
    return Ok(report);
  }

  /** replay_with_mode over the collected inputs, into a freshly seeded database. */
  method ReplayWithMode(conn: Connection, files: seq<LogFile>, mode: Mode) returns (result: Result<Report, Fault>)
    requires conn.Valid()
    modifies conn, conn.predicates
    ensures conn.Valid()
    ensures match AfterFiles(mode, Running(old(conn.Snapshot()), EmptyReport), files)
            case Running(db, report) => result == Ok(report) && conn.Snapshot() == db
            case Aborted(fault) => result == Err(fault)
  {
    var report := EmptyReport;
    ghost var start := Running(conn.Snapshot(), EmptyReport);
    for f := 0 to |files|
      invariant conn.Valid()
      invariant AfterFiles(mode, start, files[..f]) == Running(conn.Snapshot(), report)
    {
      assert files[..f + 1] == files[..f] + [files[f]];
      LastFile(mode, start, files[..f], files[f]);
      report := report.(filesWalked := report.filesWalked + 1);
      var outcome := ReplayFile(conn, files[f], mode, report);
      match outcome {
        case Ok(counted) => report := counted;
        case Err(fault) =>
          FilesFromPrefix(mode, start, files, f + 1);
          return Err(fault);
      }
    }
    assert files[..|files|] == files;
    return Ok(report);
  }

  // ----- lenient replay is strict replay without the quarantined lines -----

  ghost predicate Bad(db: Database, line: Line) {
    line != BlankLine && line != Unreadable && TryLine(db, line).Err?
  }

  /** The lines of a file a lenient run does not quarantine. */
  ghost function KeptLines(p: Progress, path: string, lines: seq<Line>): seq<Line>
    decreases |lines|
  {
    if lines == [] then []
    else
      var before := AfterLines(Lenient, p, path, lines[..|lines| - 1]);
      var kept := KeptLines(p, path, lines[..|lines| - 1]);
      if before.Running? && Bad(before.db, lines[|lines| - 1]) then kept else kept + [lines[|lines| - 1]]
  }

  ghost function KeptFiles(p: Progress, files: seq<LogFile>): seq<LogFile>
    decreases |files|
  {
    if files == [] then []
    else
      var file := files[|files| - 1];
      var begun := OpenFile(AfterFiles(Lenient, p, files[..|files| - 1]));
      KeptFiles(p, files[..|files| - 1]) + [LogFile(file.path, KeptLines(begun, file.path, file.lines))]
  }

  /** The same progress, nothing quarantined. */
  ghost function Clean(p: Progress): Progress {
    if p.Running? then p.(report := p.report.(quarantined := [])) else p
  }

  ghost predicate Readable(lines: seq<Line>) {
    forall i :: 0 <= i < |lines| ==> lines[i] != Unreadable
  }

  lemma {:induction false} LenientRuns(p: Progress, path: string, lines: seq<Line>)
    requires p.Running?
    ensures AfterLines(Lenient, p, path, lines).Running? <==> Readable(lines)
    decreases |lines|
  {
    if lines != [] {
      LenientRuns(p, path, lines[..|lines| - 1]);
      ReadableSplits(lines);
    }
  }

  lemma ReadableSplits(lines: seq<Line>)
    requires lines != []
    ensures Readable(lines) <==> Readable(lines[..|lines| - 1]) && lines[|lines| - 1] != Unreadable
  {
  }

  ghost predicate AllReadable(files: seq<LogFile>) {
    forall f :: 0 <= f < |files| ==> Readable(files[f].lines)
  }

  /** A lenient run reaches the end exactly when no line is unreadable: one such line ends it, as it ends a
      strict one. */
  lemma {:induction false} LenientEndsIffReadable(p: Progress, files: seq<LogFile>)
    requires p.Running?
    ensures AfterFiles(Lenient, p, files).Running? <==> AllReadable(files)
    ensures !AllReadable(files) ==> AfterFiles(Lenient, p, files) == Aborted(NotText)
    decreases |files|
  {
    if files != [] {
      var front, file := files[..|files| - 1], files[|files| - 1];
      LenientEndsIffReadable(p, front);
      var begun := OpenFile(AfterFiles(Lenient, p, front));
      assert AllReadable(files) <==> AllReadable(front) && Readable(file.lines);
      if begun.Running? {
        LenientRuns(begun, file.path, file.lines);
        if AfterFiles(Lenient, p, files).Aborted? { OnlyUnreadableAborts(begun, file.path, file.lines); }
      } else {
        AbortedLines(Lenient, begun, file.path, file.lines);
      }
    }
  }

  lemma {:induction false} OnlyUnreadableAborts(p: Progress, path: string, lines: seq<Line>)
    requires p.Running? && AfterLines(Lenient, p, path, lines).Aborted?
    ensures AfterLines(Lenient, p, path, lines) == Aborted(NotText)
    decreases |lines|
  {
    if lines != [] && AfterLines(Lenient, p, path, lines[..|lines| - 1]).Aborted? {
      OnlyUnreadableAborts(p, path, lines[..|lines| - 1]);
    }
  }

  lemma {:induction false} KeptLinesReplayStrictly(p: Progress, path: string, lines: seq<Line>)
    ensures AfterLines(Strict, Clean(p), path, KeptLines(p, path, lines)) == Clean(AfterLines(Lenient, p, path, lines))
    decreases |lines|
  {
    if lines != [] {
      var front, line := lines[..|lines| - 1], lines[|lines| - 1];
      KeptLinesReplayStrictly(p, path, front);
      KeptLineReplaysStrictly(AfterLines(Lenient, p, path, front), path, |lines|, line);
      OneMoreKept(p, path, lines);
    }
  }

  /** What the last line adds to the kept ones, and to the strict run over them. */
  lemma OneMoreKept(p: Progress, path: string, lines: seq<Line>)
    requires lines != []
    requires var front := lines[..|lines| - 1];
             AfterLines(Strict, Clean(p), path, KeptLines(p, path, front)) == Clean(AfterLines(Lenient, p, path, front))
    ensures var line, before := lines[|lines| - 1], AfterLines(Lenient, p, path, lines[..|lines| - 1]);
            AfterLines(Strict, Clean(p), path, KeptLines(p, path, lines)) ==
              if before.Running? && Bad(before.db, line) then Clean(before)
              else AfterLine(Strict, Clean(before), path, |lines|, line)
  {
    var line, before := lines[|lines| - 1], AfterLines(Lenient, p, path, lines[..|lines| - 1]);
    var kept := KeptLines(p, path, lines[..|lines| - 1]);
    if before.Running? && Bad(before.db, line) {
      assert KeptLines(p, path, lines) == kept;
    } else {
      assert KeptLines(p, path, lines) == kept + [line];
      LastLine(Strict, Clean(p), path, kept, line);
      AnyNumber(Clean(before), path, |lines|, |kept| + 1, line);
    }
  }

  lemma LastLine(mode: Mode, p: Progress, path: string, lines: seq<Line>, line: Line)
    ensures AfterLines(mode, p, path, lines + [line]) ==
              AfterLine(mode, AfterLines(mode, p, path, lines), path, |lines| + 1, line)
  {
    assert (lines + [line])[..|lines|] == lines;
  }

  /** A line that is kept does the same to a strict run; a dropped one does nothing but enter the quarantine. */
  lemma KeptLineReplaysStrictly(before: Progress, path: string, number: nat, line: Line)
    ensures Clean(AfterLine(Lenient, before, path, number, line)) ==
            if before.Running? && Bad(before.db, line) then Clean(before)
            else AfterLine(Strict, Clean(before), path, number, line)
  {
  }

  /** The line number only matters to the quarantine. */
  lemma AnyNumber(p: Progress, path: string, m: nat, n: nat, line: Line)
    ensures AfterLine(Strict, p, path, m, line) == AfterLine(Strict, p, path, n, line)
  {
  }

  /** Lenient replay equals strict replay of the same files with the quarantined lines removed,
      counters included; where an unreadable line ends the one, it ends the other. */
  lemma {:induction false} LenientIsStrictOnKeptLines(p: Progress, files: seq<LogFile>)
    ensures AfterFiles(Strict, Clean(p), KeptFiles(p, files)) == Clean(AfterFiles(Lenient, p, files))
    decreases |files|
  {
    if files != [] {
      var front, file := files[..|files| - 1], files[|files| - 1];
      LenientIsStrictOnKeptLines(p, front);
      var begun := OpenFile(AfterFiles(Lenient, p, front));
      KeptLinesReplayStrictly(begun, file.path, file.lines);
      LastFile(Strict, Clean(p), KeptFiles(p, front), LogFile(file.path, KeptLines(begun, file.path, file.lines)));
    }
  }

  lemma LastFile(mode: Mode, p: Progress, files: seq<LogFile>, file: LogFile)
    ensures AfterFiles(mode, p, files + [file]) ==
              AfterLines(mode, OpenFile(AfterFiles(mode, p, files)), file.path, file.lines)
  {
    assert (files + [file])[..|files|] == files;
  }

  lemma {:induction false} StrictLinesAreLenient(p: Progress, path: string, lines: seq<Line>)
    requires AfterLines(Strict, p, path, lines).Running?
    ensures AfterLines(Lenient, p, path, lines) == AfterLines(Strict, p, path, lines)
    decreases |lines|
  {
    if lines != [] { StrictLinesAreLenient(p, path, lines[..|lines| - 1]); }
  }

  lemma {:induction false} StrictKeepsQuarantine(p: Progress, path: string, lines: seq<Line>)
    requires AfterLines(Strict, p, path, lines).Running?
    ensures p.Running? && AfterLines(Strict, p, path, lines).report.quarantined == p.report.quarantined
    decreases |lines|
  {
    if lines != [] { StrictKeepsQuarantine(p, path, lines[..|lines| - 1]); }
  }

  /** Where strict replay succeeds, lenient replay gives the same database, the same counters
      and an empty quarantine. */
  lemma {:induction false} StrictSuccessIsLenient(p: Progress, files: seq<LogFile>)
    requires p.Running? && AfterFiles(Strict, p, files).Running?
    ensures AfterFiles(Lenient, p, files) == AfterFiles(Strict, p, files)
    ensures AfterFiles(Lenient, p, files).report.quarantined == p.report.quarantined
    decreases |files|
  {
    if files != [] {
      var front, file := files[..|files| - 1], files[|files| - 1];
      var begun := OpenFile(AfterFiles(Strict, p, front));
      StrictKeepsQuarantine(begun, file.path, file.lines);
      StrictSuccessIsLenient(p, front);
      StrictLinesAreLenient(begun, file.path, file.lines);
    }
  }

  // ----- every line is accounted for -----

  function Total(report: Report): nat {
    report.claims + report.hyperedges + report.events + report.observations + report.vectorChunks + report.lifecycle
  }

  datatype Fate = Counted | Uncounted | Repeat | Quarantined

  /** What a lenient run does with a nonblank line. */
  ghost function FateOf(db: Database, line: Line): Fate
    requires line != BlankLine && line != Unreadable
  {
    match TryLine(db, line)
    case Err(_) => Quarantined
    case Ok((_, Duplicate)) => Repeat
    case Ok((_, Applied)) => if line.record.PruneObservations? then Uncounted else Counted
  }

  /** How many nonblank lines of a file meet each fate. */
  ghost function FatesOf(p: Progress, path: string, lines: seq<Line>, fate: Fate): nat
    decreases |lines|
  {
    if lines == [] then 0
    else
      var before := AfterLines(Lenient, p, path, lines[..|lines| - 1]);
      var last := lines[|lines| - 1];
      FatesOf(p, path, lines[..|lines| - 1], fate)
      + if last != BlankLine && last != Unreadable && before.Running? && FateOf(before.db, last) == fate then 1 else 0
  }

  function Nonblank(lines: seq<Line>): nat
    decreases |lines|
  {
    if lines == [] then 0
    else Nonblank(lines[..|lines| - 1]) + if lines[|lines| - 1] != BlankLine then 1 else 0
  }

  /** In a file without unreadable lines every nonblank line is exactly one of counted, an uncounted prune
      marker, a duplicate or quarantined, and the report tells how many were counted and quarantined. */
  lemma {:induction false} EveryLineAccountedFor(p: Progress, path: string, lines: seq<Line>)
    requires p.Running? && Readable(lines)
    ensures Nonblank(lines) == FatesOf(p, path, lines, Counted) + FatesOf(p, path, lines, Uncounted)
                             + FatesOf(p, path, lines, Repeat) + FatesOf(p, path, lines, Quarantined)
    ensures var after := AfterLines(Lenient, p, path, lines);
            && after.Running?
            && Total(after.report) == Total(p.report) + FatesOf(p, path, lines, Counted)
            && |after.report.quarantined| == |p.report.quarantined| + FatesOf(p, path, lines, Quarantined)
    decreases |lines|
  {
    if lines != [] {
      var front := lines[..|lines| - 1];
      ReadableSplits(lines);
      EveryLineAccountedFor(p, path, front);
      OneLineAccountedFor(AfterLines(Lenient, p, path, front), path, |lines|, lines[|lines| - 1]);
    }
  }

  lemma OneLineAccountedFor(before: Progress, path: string, number: nat, line: Line)
    requires before.Running? && line != Unreadable
    ensures var after := AfterLine(Lenient, before, path, number, line);
            && after.Running?
            && Total(after.report) == Total(before.report)
                 + (if line != BlankLine && FateOf(before.db, line) == Counted then 1 else 0)
            && |after.report.quarantined| == |before.report.quarantined|
                 + (if line != BlankLine && FateOf(before.db, line) == Quarantined then 1 else 0)
  {
  }

  /** A failing record can have written rows before it fails, so the savepoint matters. */
  lemma FailuresCanWriteFirst(db: Database, present: int, missing: int)
    requires present in db.core.claims && db.core.claims[present].status == Active && missing !in db.core.claims
    ensures var o := ApplyRecord(db, SupersedeClaims(0, [present, missing]));
            o.result == Err(InvalidRecord) && o.state != db
  {
    var row := db.core.claims[present];
    var next := db.core.claims[present := row.(status := Superseded)];
    assert [present, missing][1..] == [missing];
    assert ApplySupersede(db.core.claims, [present, missing]) == ApplySupersede(next, [missing]);
    assert ApplySupersede(next, [missing]).state[present].status == Superseded;
  }

  // ----- from replayed lines to replayed files -----

  ghost predicate AllParsed(lines: seq<Line>) {
    forall i :: 0 <= i < |lines| ==> lines[i].Parsed?
  }

  function RecordsOf(lines: seq<Line>): seq<LogRecord>
    requires forall i | 0 <= i < |lines| :: lines[i].Parsed?
    decreases |lines|
  {
    if lines == [] then [] else RecordsOf(lines[..|lines| - 1]) + [lines[|lines| - 1].record]
  }

  lemma {:induction false} FileReplaysItsRecords(p: Progress, path: string, lines: seq<Line>)
    requires p.Running? && AllParsed(lines) && ReplayLines(p.db, RecordsOf(lines)).Some?
    ensures var after := AfterLines(Strict, p, path, lines);
            && after.Running? && after.db == ReplayLines(p.db, RecordsOf(lines)).value
            && FatesOf(p, path, lines, Repeat) == 0
    decreases |lines|
  {
    if lines != [] {
      var front, line := lines[..|lines| - 1], lines[|lines| - 1];
      LastRecord(p.db, RecordsOf(front), line.record);
      FileReplaysItsRecords(p, path, front);
      StrictLinesAreLenient(p, path, front);
      NovelLine(AfterLines(Strict, p, path, front), path, |lines|, line);
    }
  }

  lemma LastRecord(db: Database, records: seq<LogRecord>, r: LogRecord)
    requires ReplayLines(db, records + [r]).Some?
    ensures ReplayLines(db, records).Some?
    ensures ApplyRecord(ReplayLines(db, records).value, r) == Outcome(ReplayLines(db, records + [r]).value, Ok(Applied))
  {
    assert (records + [r])[..|records|] == records;
  }

  lemma NovelLine(p: Progress, path: string, number: nat, line: Line)
    requires p.Running? && line.Parsed? && ApplyRecord(p.db, line.record).result == Ok(Applied)
    ensures AfterLine(Strict, p, path, number, line) ==
              Running(ApplyRecord(p.db, line.record).state, Count(p.report, line.record))
    ensures FateOf(p.db, line) != Repeat
  {
  }

  ghost predicate FilesParsed(files: seq<LogFile>) {
    forall f :: 0 <= f < |files| ==> AllParsed(files[f].lines)
  }

  ghost function RecordsOfFiles(files: seq<LogFile>): seq<LogRecord>
    requires FilesParsed(files)
    decreases |files|
  {
    if files == [] then [] else RecordsOfFiles(files[..|files| - 1]) + RecordsOf(files[|files| - 1].lines)
  }

  lemma {:induction false} FilesReplayTheirRecords(p: Progress, files: seq<LogFile>)
    requires p.Running? && FilesParsed(files) && ReplayLines(p.db, RecordsOfFiles(files)).Some?
    ensures var after := AfterFiles(Strict, p, files);
            after.Running? && after.db == ReplayLines(p.db, RecordsOfFiles(files)).value
    decreases |files|
  {
    if files != [] {
      var front, file := files[..|files| - 1], files[|files| - 1];
      var first, all := RecordsOfFiles(front), RecordsOfFiles(files);
      PrefixReplays(p.db, all, |first|);
      assert all[..|first|] == first;
      FilesReplayTheirRecords(p, front);
      ReplayInTwoParts(p.db, first, RecordsOf(file.lines));
      FileReplaysItsRecords(OpenFile(AfterFiles(Strict, p, front)), file.path, file.lines);
    }
  }

  /** Strict and lenient replay of the files a live run left, however its logs were cut into
      archives, both rebuild its database and quarantine nothing. */
  lemma FilesRebuildLiveRun(s: Live, ops: seq<Op>, files: seq<LogFile>)
    requires Fresh(s) && Succeeds(s, ops)
    requires FilesParsed(files) && RecordsOfFiles(files) == ReplayOrder(Run(s, ops))
    ensures var after := AfterFiles(Strict, Running(s.db, EmptyReport), files);
            && after.Running? && after.db == Run(s, ops).db && after.report.quarantined == []
            && AfterFiles(Lenient, Running(s.db, EmptyReport), files) == after
  {
    ReplayRebuildsLiveRun(s, ops);
    FilesReplayTheirRecords(Running(s.db, EmptyReport), files);
    StrictSuccessIsLenient(Running(s.db, EmptyReport), files);
  }
}
