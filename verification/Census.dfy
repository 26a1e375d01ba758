/** What a replay's report (crates/aver-core/src/replay.rs) says of the tables: its counters are the rows that
    went in. */
module Census {
  import opened Prelude
  import opened Records
  import opened Projection
  import opened Runs
  import opened Replay
  import opened Effects

  function One(b: bool): nat { if b then 1 else 0 }

  /** The tables grew by the row a line brings, if it brings one. */
  ghost predicate GrewBy(before: Database, after: Database, r: LogRecord) {
    && |after.core.claims| == |before.core.claims| + One(r.AddClaim?)
    && |after.core.hyperedges| == |before.core.hyperedges| + One(r.AddHyperedge?)
    && |after.core.chunks| == |before.core.chunks| + One(r.AddVectorChunk?)
    && |after.episodic.events| == |before.episodic.events| + One(r.RecordEvent?)
    && |after.notes.observations| == |before.notes.observations| + One(r.RecordObservation?)
  }

  lemma SameKeysSameSize<K, V>(a: map<K, V>, b: map<K, V>)
    requires a.Keys == b.Keys
    ensures |a| == |b|
  {
    assert |a.Keys| == |a| && |b.Keys| == |b|;
  }

  lemma OneKeyMore<K, V>(a: map<K, V>, k: K, v: V)
    requires k !in a
    ensures |a[k := v]| == |a| + 1
  {
    assert a[k := v].Keys == a.Keys + {k};
    assert |a[k := v].Keys| == |a[k := v]| && |a.Keys| == |a|;
  }

  lemma SameKey<K, V>(a: map<K, V>, k: K, v: V)
    requires k in a
    ensures |a[k := v]| == |a|
  {
    SameKeysSameSize(a, a[k := v]);
  }

  lemma ClaimRowsIn(db: Database, r: LogRecord, after: Database)
    requires r.AddClaim? && ApplyRecord(db, r) == Outcome(after, Ok(Applied))
    ensures r.claimId !in db.core.claims && r.claimId in after.core.claims
    ensures after.core.claims == db.core.claims[r.claimId := after.core.claims[r.claimId]]
    ensures after.core.hyperedges == db.core.hyperedges && after.core.chunks == db.core.chunks
    ensures after.episodic == db.episodic && after.notes == db.notes
  {
    ClaimLineEffect(db, r);
  }

  lemma ClaimGrows(db: Database, r: LogRecord)
    requires r.AddClaim? && ApplyRecord(db, r).result == Ok(Applied)
    ensures GrewBy(db, ApplyRecord(db, r).state, r)
  {
    var after := ApplyRecord(db, r).state;
    ClaimRowsIn(db, r, after);
    OneKeyMore(db.core.claims, r.claimId, after.core.claims[r.claimId]);
  }

  lemma HyperedgeGrows(db: Database, r: LogRecord)
    requires r.AddHyperedge? && ApplyRecord(db, r).result == Ok(Applied)
    ensures GrewBy(db, ApplyRecord(db, r).state, r)
  {
    HyperedgeLineEffect(db, r);
    var after := ApplyRecord(db, r).state;
    OneKeyMore(db.core.hyperedges, r.hyperedgeId, after.core.hyperedges[r.hyperedgeId]);
  }

  lemma ChunksGrow(db: Database, r: LogRecord)
    requires (r.AddVectorChunk? || r.EmbedVectorChunk?) && ApplyRecord(db, r).result == Ok(Applied)
    ensures GrewBy(db, ApplyRecord(db, r).state, r)
  {
    var chunks, after := db.core.chunks, ApplyRecord(db, r).state;
    if r.AddVectorChunk? {
      ChunkLineEffect(db, r);
      OneKeyMore(chunks, r.chunkId, after.core.chunks[r.chunkId]);
    } else {
      EmbeddingLineEffect(db, r);
      SameKey(chunks, r.chunkId, after.core.chunks[r.chunkId]);
    }
  }

  lemma EventsGrow(db: Database, r: LogRecord)
    requires SeriesOf(r) == EventLog && ApplyRecord(db, r).result == Ok(Applied)
    ensures GrewBy(db, ApplyRecord(db, r).state, r)
  {
    if r.RecordEvent? {
      EventLineEffect(db, r);
      OneKeyMore(db.episodic.events, r.eventId, ApplyRecord(db, r).state.episodic.events[r.eventId]);
    }
  }

  lemma ObservationsGrow(db: Database, r: LogRecord)
    requires SeriesOf(r) == ObservationLog && ApplyRecord(db, r).result == Ok(Applied)
    ensures GrewBy(db, ApplyRecord(db, r).state, r)
  {
    if r.RecordObservation? {
      ObservationLineEffect(db, r);
      OneKeyMore(db.notes.observations, r.observationId, ApplyRecord(db, r).state.notes.observations[r.observationId]);
    }
  }

  predicate OnRows(r: LogRecord) {
    r.RetireClaim? || r.AddContradiction? || r.SupersedeClaims? || r.DecayConfidence? || r.MergeSourceRefs?
  }

  lemma RowsStay(db: Database, r: LogRecord)
    requires OnRows(r)
    ensures GrewBy(db, ApplyRecord(db, r).state, r)
  {
    var claims := db.core.claims;
    if r.SupersedeClaims? {
      SupersedeKeepsKeys(claims, r.claimIds);
      SameKeysSameSize(claims, ApplySupersede(claims, r.claimIds).state);
    } else if r.DecayConfidence? {
      DecayKeepsKeys(claims, r.changes);
      SameKeysSameSize(claims, ApplyDecay(claims, r.changes).state);
    } else if r.RetireClaim? {
      SameKeysSameSize(claims, ApplyRetire(claims, r).state);
    } else if r.MergeSourceRefs? {
      SameKeysSameSize(claims, ApplyMerge(claims, r).state);
    }
  }

  lemma AppliedLineGrows(db: Database, r: LogRecord)
    requires ApplyRecord(db, r).result == Ok(Applied)
    ensures GrewBy(db, ApplyRecord(db, r).state, r)
  {
    if r.AddClaim? { ClaimGrows(db, r); }
    else if r.AddHyperedge? { HyperedgeGrows(db, r); }
    else if OnRows(r) { RowsStay(db, r); }
    else if SeriesOf(r) == EventLog { EventsGrow(db, r); }
    else if SeriesOf(r) == ObservationLog { ObservationsGrow(db, r); }
    else { ChunksGrow(db, r); }
  }

  /** A known record changes nothing. */
  lemma DuplicateStays(db: Database, r: LogRecord)
    requires ApplyRecord(db, r).result == Ok(Duplicate)
    ensures ApplyRecord(db, r).state == db
  {
    if r.SupersedeClaims? { SupersedeKeepsKeys(db.core.claims, r.claimIds); }
    else if r.DecayConfidence? { DecayKeepsKeys(db.core.claims, r.changes); }
  }

  /** What one applied line adds to the report: to one counter, or to none for a prune marker. */
  lemma CountSays(report: Report, r: LogRecord)
    ensures var c := Count(report, r);
            && c.claims == report.claims + One(r.AddClaim?)
            && c.hyperedges == report.hyperedges + One(r.AddHyperedge?)
            && c.events == report.events + One(r.RecordEvent?)
            && c.observations == report.observations + One(r.RecordObservation?)
            && c.vectorChunks == report.vectorChunks + One(r.AddVectorChunk? || r.EmbedVectorChunk?)
            && c.lifecycle == report.lifecycle
                 + One(OnRows(r) || r.ProposeCandidate? || r.PromoteCandidate? || r.RejectCandidate?)
            && c.filesWalked == report.filesWalked && c.quarantined == report.quarantined
  {
  }

  /** From `start` on, each counter rose by as much as its table grew, and that of the chunks by no less. */
  ghost predicate Tallies(start: Progress, p: Progress)
    requires start.Running?
  {
    p.Running? ==>
      && p.report.claims - start.report.claims == |p.db.core.claims| - |start.db.core.claims|
      && p.report.hyperedges - start.report.hyperedges == |p.db.core.hyperedges| - |start.db.core.hyperedges|
      && p.report.events - start.report.events == |p.db.episodic.events| - |start.db.episodic.events|
      && p.report.observations - start.report.observations
         == |p.db.notes.observations| - |start.db.notes.observations|
      && p.report.vectorChunks - start.report.vectorChunks >= |p.db.core.chunks| - |start.db.core.chunks|
  }

  lemma LineTallies(start: Progress, mode: Mode, p: Progress, path: string, number: nat, line: Line)
    requires start.Running? && Tallies(start, p)
    ensures Tallies(start, AfterLine(mode, p, path, number, line))
  {
    if p.Running? && line.Parsed? {
      var next := AfterLine(mode, p, path, number, line);
      LineGoes(mode, p, path, number, line.record);
      if next.Running? && ApplyRecord(p.db, line.record).result == Ok(Applied) {
        AppliedTallies(start, p, next, line.record);
      }
    }
  }

  lemma LineGoes(mode: Mode, p: Progress, path: string, number: nat, r: LogRecord)
    requires p.Running?
    ensures var next, o := AfterLine(mode, p, path, number, Parsed(r)), ApplyRecord(p.db, r);
            next.Running? ==>
              if o.result == Ok(Applied) then next == Running(o.state, Count(p.report, r))
              else next.db == p.db && SameCounters(p.report, next.report)
  {
    if ApplyRecord(p.db, r).result == Ok(Duplicate) { DuplicateStays(p.db, r); }
  }

  predicate SameCounters(a: Report, b: Report) {
    && a.claims == b.claims && a.hyperedges == b.hyperedges && a.events == b.events
    && a.observations == b.observations && a.vectorChunks == b.vectorChunks
  }

  lemma AppliedTallies(start: Progress, p: Progress, next: Progress, r: LogRecord)
    requires start.Running? && Tallies(start, p) && p.Running? && ApplyRecord(p.db, r).result == Ok(Applied)
    requires next == Running(ApplyRecord(p.db, r).state, Count(p.report, r))
    ensures Tallies(start, next)
  {
    AppliedLineGrows(p.db, r);
    CountSays(p.report, r);
  }

  lemma {:induction false} LinesTally(start: Progress, mode: Mode, p: Progress, path: string, lines: seq<Line>)
    requires start.Running? && Tallies(start, p)
    ensures Tallies(start, AfterLines(mode, p, path, lines))
    decreases |lines|
  {
    if lines != [] {
      var front := lines[..|lines| - 1];
      LinesTally(start, mode, p, path, front);
      LineTallies(start, mode, AfterLines(mode, p, path, front), path, |lines|, lines[|lines| - 1]);
    }
  }

  lemma {:induction false} FilesTally(start: Progress, mode: Mode, p: Progress, files: seq<LogFile>)
    requires start.Running? && Tallies(start, p)
    ensures Tallies(start, AfterFiles(mode, p, files))
    decreases |files|
  {
    if files != [] {
      var front, file := files[..|files| - 1], files[|files| - 1];
      FilesTally(start, mode, p, front);
      LinesTally(start, mode, OpenFile(AfterFiles(mode, p, front)), file.path, file.lines);
    }
  }

  /** A replay into a database without rows reports, in either mode, exactly the claims, hyperedges, events and
      observations the database then holds: lines known already, quarantined or blank are in no counter. */
  lemma ReportIsCensus(mode: Mode, db: Database, files: seq<LogFile>)
    requires db.core.claims == map[] && db.core.hyperedges == map[] && db.core.chunks == map[]
    requires db.episodic.events == map[] && db.notes.observations == map[]
    ensures var end := AfterFiles(mode, Running(db, EmptyReport), files);
            end.Running? ==>
              && end.report.claims == |end.db.core.claims| && end.report.hyperedges == |end.db.core.hyperedges|
              && end.report.events == |end.db.episodic.events|
              && end.report.observations == |end.db.notes.observations|
              && end.report.vectorChunks >= |end.db.core.chunks|
              && end.report.filesWalked == |files|
  {
    var start := Running(db, EmptyReport);
    FilesTally(start, mode, start, files);
    FilesWalked(mode, start, files);
  }

  lemma {:induction false} LinesOpenNone(mode: Mode, p: Progress, path: string, lines: seq<Line>)
    ensures var end := AfterLines(mode, p, path, lines);
            end.Running? ==> p.Running? && end.report.filesWalked == p.report.filesWalked
    decreases |lines|
  {
    if lines != [] {
      LinesOpenNone(mode, p, path, lines[..|lines| - 1]);
      var before, line := AfterLines(mode, p, path, lines[..|lines| - 1]), lines[|lines| - 1];
      if before.Running? && line.Parsed? { CountSays(before.report, line.record); }
    }
  }

  lemma {:induction false} FilesWalked(mode: Mode, p: Progress, files: seq<LogFile>)
    ensures var end := AfterFiles(mode, p, files);
            end.Running? ==> p.Running? && end.report.filesWalked == p.report.filesWalked + |files|
    decreases |files|
  {
    if files != [] {
      var front, file := files[..|files| - 1], files[|files| - 1];
      FilesWalked(mode, p, front);
      LinesOpenNone(mode, OpenFile(AfterFiles(mode, p, front)), file.path, file.lines);
    }
  }
}
