/** Replaying the three logs one after the other rebuilds what the live run, which
    interleaved them, had projected. */
module Runs {
  import opened Prelude
  import opened Records
  import opened Projection
  import opened Consolidation
  import opened Writers

  // ----- replay without errors and without duplicates -----

  ghost function ReplayCore(core: ClaimTables, log: seq<LogRecord>): Option<ClaimTables>
    decreases |log|
  {
    if log == [] then Some(core)
    else
      var r := log[|log| - 1];
      match ReplayCore(core, log[..|log| - 1])
      case None => None
      case Some(c) =>
        if SeriesOf(r) == ClaimLog && ApplyCore(c, r).result == Ok(Applied) then Some(ApplyCore(c, r).state) else None
  }

  ghost function ReplayEpisodic(t: EventTables, claimIds: set<int>, log: seq<LogRecord>): Option<EventTables>
    decreases |log|
  {
    if log == [] then Some(t)
    else
      var r := log[|log| - 1];
      match ReplayEpisodic(t, claimIds, log[..|log| - 1])
      case None => None
      case Some(e) =>
        if SeriesOf(r) == EventLog && ApplyEpisodic(e, claimIds, r).result == Ok(Applied)
        then Some(ApplyEpisodic(e, claimIds, r).state) else None
  }

  ghost function ReplayNotes(t: ObservationTables, log: seq<LogRecord>): Option<ObservationTables>
    decreases |log|
  {
    if log == [] then Some(t)
    else
      var r := log[|log| - 1];
      match ReplayNotes(t, log[..|log| - 1])
      case None => None
      case Some(n) =>
        if SeriesOf(r) == ObservationLog && ApplyNotes(n, r).result == Ok(Applied)
        then Some(ApplyNotes(n, r).state) else None
  }

  /** The same over whole databases: what strict replay does to a list of lines. */
  ghost function ReplayLines(db: Database, lines: seq<LogRecord>): Option<Database>
    decreases |lines|
  {
    if lines == [] then Some(db)
    else match ReplayLines(db, lines[..|lines| - 1])
      case None => None
      case Some(d) =>
        var o := ApplyRecord(d, lines[|lines| - 1]);
        if o.result == Ok(Applied) then Some(o.state) else None
  }

  // ----- why the order of the series does not matter -----

  /** Claims are never removed. */
  lemma ClaimsStay(core: ClaimTables, r: LogRecord)
    requires SeriesOf(r) == ClaimLog
    ensures core.claims.Keys <= ApplyCore(core, r).state.claims.Keys
  {
    if r.SupersedeClaims? { SupersedeKeepsKeys(core.claims, r.claimIds); }
    else if r.DecayConfidence? { DecayKeepsKeys(core.claims, r.changes); }
  }

  lemma SupersedeKeepsKeys(claims: Claims, ids: seq<int>)
    ensures ApplySupersede(claims, ids).state.Keys == claims.Keys
    ensures ApplySupersede(claims, ids).result != Ok(Duplicate)
    decreases |ids|
  {
  }

  lemma DecayKeepsKeys(claims: Claims, changes: seq<ConfidenceChange>)
    ensures ApplyDecay(claims, changes).state.Keys == claims.Keys
    ensures ApplyDecay(claims, changes).result != Ok(Duplicate)
    decreases |changes|
  {
  }

  /** An event log that replays against some claims replays alike against more claims: a
      promotion needs only that its claim exists. */
  lemma {:induction false} MoreClaimsChangeNothing(t: EventTables, few: set<int>, many: set<int>, log: seq<LogRecord>)
    requires few <= many && ReplayEpisodic(t, few, log).Some?
    ensures ReplayEpisodic(t, many, log) == ReplayEpisodic(t, few, log)
    decreases |log|
  {
    if log != [] {
      MoreClaimsChangeNothing(t, few, many, log[..|log| - 1]);
    }
  }

  /** The three logs, each on its own, rebuild the three groups of tables. */
  ghost predicate Rebuilt(seed: Database, s: Live) {
    && ReplayCore(seed.core, s.log) == Some(s.db.core)
    && ReplayEpisodic(seed.episodic, s.db.core.claims.Keys, s.events) == Some(s.db.episodic)
    && ReplayNotes(seed.notes, s.observations) == Some(s.db.notes)
  }

  lemma OneLineMore(seed: Database, s: Live, r: LogRecord)
    requires Rebuilt(seed, s) && ApplyRecord(s.db, r).result == Ok(Applied)
    ensures Rebuilt(seed, AppendLine(s, r).(db := ApplyRecord(s.db, r).state))
  {
    var after := AppendLine(s, r).(db := ApplyRecord(s.db, r).state);
    match SeriesOf(r)
    case ClaimLog =>
      assert after.log[..|after.log| - 1] == s.log;
      ClaimsStay(s.db.core, r);
      MoreClaimsChangeNothing(seed.episodic, s.db.core.claims.Keys, after.db.core.claims.Keys, s.events);
    case EventLog =>
      assert after.events[..|after.events| - 1] == s.events;
    case ObservationLog =>
      assert after.observations[..|after.observations| - 1] == s.observations;
  }

  lemma {:induction false} CommitRebuilds(seed: Database, s: Live, records: seq<LogRecord>)
    requires Rebuilt(seed, s) && ApplyAll(s.db, records).result == Ok(Applied)
    ensures Rebuilt(seed, AppendAll(s, records).(db := ApplyAll(s.db, records).state))
    decreases |records|
  {
    if records != [] {
      OneLineMore(seed, s, records[0]);
      var next := AppendLine(s, records[0]).(db := ApplyRecord(s.db, records[0]).state);
      CommitRebuilds(seed, next, records[1..]);
      AppendIgnoresDatabase(AppendLine(s, records[0]), next.db, records[1..]);
    } else {
      assert AppendAll(s, records).(db := ApplyAll(s.db, records).state) == s;
    }
  }

  lemma {:induction false} AppendIgnoresDatabase(s: Live, db: Database, records: seq<LogRecord>)
    ensures AppendAll(s.(db := db), records) == AppendAll(s, records).(db := db)
    decreases |records|
  {
    if records != [] {
      AppendIgnoresDatabase(AppendLine(s, records[0]), db, records[1..]);
    }
  }

  // ----- from three replays to one -----

  lemma {:induction false} ReplayInTwoParts(db: Database, a: seq<LogRecord>, b: seq<LogRecord>)
    requires ReplayLines(db, a).Some?
    ensures ReplayLines(db, a + b) == ReplayLines(ReplayLines(db, a).value, b)
    decreases |b|
  {
    if b == [] {
      assert a + b == a;
    } else {
      assert (a + b)[..|a + b| - 1] == a + b[..|b| - 1];
      ReplayInTwoParts(db, a, b[..|b| - 1]);
    }
  }

  lemma {:induction false} ReplayClaimLog(db: Database, log: seq<LogRecord>)
    requires ReplayCore(db.core, log).Some?
    ensures ReplayLines(db, log) == Some(db.(core := ReplayCore(db.core, log).value))
    decreases |log|
  {
    if log != [] {
      ReplayClaimLog(db, log[..|log| - 1]);
    }
  }

  lemma {:induction false} ReplayEventLog(db: Database, log: seq<LogRecord>)
    requires ReplayEpisodic(db.episodic, db.core.claims.Keys, log).Some?
    ensures ReplayLines(db, log) == Some(db.(episodic := ReplayEpisodic(db.episodic, db.core.claims.Keys, log).value))
    decreases |log|
  {
    if log != [] {
      ReplayEventLog(db, log[..|log| - 1]);
    }
  }

  lemma {:induction false} ReplayObservationLog(db: Database, log: seq<LogRecord>)
    requires ReplayNotes(db.notes, log).Some?
    ensures ReplayLines(db, log) == Some(db.(notes := ReplayNotes(db.notes, log).value))
    decreases |log|
  {
    if log != [] {
      ReplayObservationLog(db, log[..|log| - 1]);
    }
  }

  /** The lines in the order replay reads them. */
  function ReplayOrder(s: Live): seq<LogRecord> { s.log + s.events + s.observations }

  lemma SeriesBySeries(seed: Database, s: Live)
    requires Rebuilt(seed, s)
    ensures ReplayLines(seed, ReplayOrder(s)) == Some(s.db)
  {
    ReplayClaimLog(seed, s.log);
    var one := seed.(core := s.db.core);
    ReplayEventLog(one, s.events);
    var two := one.(episodic := s.db.episodic);
    ReplayObservationLog(two, s.observations);
    ReplayInTwoParts(seed, s.log, s.events);
    ReplayInTwoParts(seed, s.log + s.events, s.observations);
  }

  /** A committed claim has the id just minted, which no claim had before; and no claim went away. */
  lemma CommittedClaimIsNew(s: Live, ts: int, tick: nat, w: ClaimWrite)
    requires Step(s, WriteClaim(ts, tick, w)).status == Committed
    ensures var t := Step(s, WriteClaim(ts, tick, w)).live;
            && t.lastId in t.db.core.claims && t.lastId !in s.db.core.claims
            && s.db.core.claims.Keys <= t.db.core.claims.Keys
  {
    var id := Mint(s.lastId, tick);
    var r := ClaimRecord(ts, id, w);
    CommitOne(s.(lastId := id), r);
    ClaimsStay(s.db.core, r);
    assert ApplyRecord(s.db, r).result == Ok(Applied);
  }
}
