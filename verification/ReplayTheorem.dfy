/** The main theorems about live runs and strict replay. */
module ReplayTheorem {
  import opened Prelude
  import opened Records
  import opened Projection
  import opened Consolidation
  import opened Writers
  import opened Runs
  import opened Lifecycle
  import opened LiveRuns

  /** A freshly seeded store: type tables, no rows, empty logs. */
  ghost predicate Fresh(s: Live) {
    && s.log == [] && s.events == [] && s.observations == []
    && s.db.core.claims == map[] && s.db.core.hyperedges == map[] && s.db.core.contradictions == map[]
    && s.db.core.chunks == map[] && s.db.episodic == EventTables(map[], map[])
    && s.db.notes == ObservationTables(map[], map[])
  }

  /** Every line of the claim log was careful where it applied. */
  ghost predicate CarefulLog(core: ClaimTables, log: seq<LogRecord>)
    decreases |log|
  {
    log != [] ==>
      var before := ReplayCore(core, log[..|log| - 1]);
      CarefulLog(core, log[..|log| - 1]) && before.Some? && Careful(before.value.claims, log[|log| - 1])
  }

  ghost predicate Invariant(seed: Database, s: Live) {
    Healthy(s.db, s.lastId) && Rebuilt(seed, s) && CarefulLog(seed.core, s.log)
  }

  lemma {:induction false} CommitKeepsCareful(seed: Database, s: Live, last: int, records: seq<LogRecord>)
    requires Rebuilt(seed, s) && CarefulLog(seed.core, s.log) && SoundLines(s.db, last, records)
    requires ApplyAll(s.db, records).result == Ok(Applied)
    ensures CarefulLog(seed.core, AppendAll(s, records).log)
    decreases |records|
  {
    if records != [] {
      var r := records[0];
      var next := AppendLine(s, r).(db := ApplyRecord(s.db, r).state);
      OneLineMore(seed, s, r);
      if SeriesOf(r) == ClaimLog { assert next.log[..|next.log| - 1] == s.log; }
      CommitKeepsCareful(seed, next, last, records[1..]);
      AppendIgnoresDatabase(AppendLine(s, r), next.db, records[1..]);
    }
  }

  lemma {:induction false} AppendKeepsDatabase(s: Live, records: seq<LogRecord>)
    ensures AppendAll(s, records).db == s.db && AppendAll(s, records).lastId == s.lastId
    decreases |records|
  {
    if records != [] { AppendKeepsDatabase(AppendLine(s, records[0]), records[1..]); }
  }

  lemma IdsStayBounded(db: Database, last: int, more: int)
    requires Healthy(db, last) && last <= more
    ensures Healthy(db, more)
  {
  }

  lemma CommitMovesForward(s: Live, records: seq<LogRecord>)
    requires Healthy(s.db, s.lastId) && SoundLines(s.db, s.lastId, records)
    ensures var t := Commit(s, records);
            && Healthy(t.live.db, t.live.lastId) && Forward(s.db, t.live.db)
            && t.status != Repeated && t.status != Unchanged && (t.status == LogAhead ==> t.live.db == s.db)
  {
    SoundLinesKeepHealth(s.db, s.lastId, records);
    CommitLeaves(s, records);
    MovedOn(s.db, s.lastId, ApplyAll(s.db, records), Commit(s, records));
  }

  lemma MovedOn(db: Database, last: int, o: Outcome<Database>, t: Stepped)
    requires Healthy(db, last) && o.result != Ok(Duplicate)
    requires o.result.Ok? ==> Healthy(o.state, last) && Forward(db, o.state)
    requires t.live.lastId == last && t.live.db == (if o.result.Ok? then o.state else db)
    requires t.status == StatusOf(o.result)
    ensures Healthy(t.live.db, t.live.lastId) && Forward(db, t.live.db)
    ensures t.status != Repeated && t.status != Unchanged && (t.status == LogAhead ==> t.live.db == db)
  {
    ForwardReflexive(db);
  }

  function StatusOf(result: Result<Applied, Projection.Error>): Status {
    match result
    case Err(_) => LogAhead
    case Ok(Duplicate) => Repeated
    case Ok(Applied) => Committed
  }

  lemma CommitLeaves(s: Live, records: seq<LogRecord>)
    ensures var t, o := Commit(s, records), ApplyAll(s.db, records);
            && t.live.lastId == s.lastId && t.live.db == (if o.result.Ok? then o.state else s.db)
            && t.status == StatusOf(o.result)
  {
    AppendKeepsDatabase(s, records);
  }

  lemma ForwardReflexive(db: Database)
    ensures Forward(db, db)
  {
  }

  /** One call: a healthy database stays healthy and only moves forward, whatever becomes of
      the call; and no line ever applies as a duplicate. */
  lemma StepMovesForward(s: Live, op: Op)
    requires Healthy(s.db, s.lastId)
    ensures var t := Step(s, op);
            && Healthy(t.live.db, t.live.lastId) && Forward(s.db, t.live.db) && t.status != Repeated
            && (t.status == Unchanged || t.status == LogAhead ==> t.live.db == s.db)
  {
    ForwardReflexive(s.db);
    match PlanOf(s, op)
    case Refuse =>
    case Nothing =>
    case Write(lastId, records) =>
      PlanIsSound(s, op);
      IdsStayBounded(s.db, s.lastId, lastId);
      assert Step(s, op) == Commit(s.(lastId := lastId), records);
      CommitMovesForward(s.(lastId := lastId), records);
  }

  lemma StepKeepsInvariant(seed: Database, s: Live, op: Op)
    requires Invariant(seed, s) && Step(s, op).status != LogAhead
    ensures Invariant(seed, Step(s, op).live)
  {
    StepMovesForward(s, op);
    if PlanOf(s, op).Write? {
      var plan := PlanOf(s, op);
      var minted := s.(lastId := plan.lastId);
      PlanIsSound(s, op);
      CommitRebuilds(seed, minted, plan.records);
      CommitKeepsCareful(seed, minted, plan.lastId, plan.records);
    }
  }

  lemma {:induction false} RunKeepsInvariant(s: Live, ops: seq<Op>)
    requires Fresh(s) && Succeeds(s, ops)
    ensures Invariant(s.db, Run(s, ops))
    decreases |ops|
  {
    if ops != [] {
      RunKeepsInvariant(s, ops[..|ops| - 1]);
      StepKeepsInvariant(s.db, Run(s, ops[..|ops| - 1]), ops[|ops| - 1]);
    }
  }

  /** For every run of live calls whose lines all applied, strictly replaying the claim log, then
      the event log, then the observation log from the seeded database succeeds, meets no
      duplicate, and rebuilds the live database, though the run interleaved the three. */
  lemma ReplayRebuildsLiveRun(s: Live, ops: seq<Op>)
    requires Fresh(s) && Succeeds(s, ops)
    ensures ReplayLines(s.db, ReplayOrder(Run(s, ops))) == Some(Run(s, ops).db)
  {
    RunKeepsInvariant(s, ops);
    SeriesBySeries(s.db, Run(s, ops));
  }

  lemma {:induction false} RunStaysHealthy(s: Live, ops: seq<Op>)
    requires Healthy(s.db, s.lastId)
    ensures Healthy(Run(s, ops).db, Run(s, ops).lastId)
    decreases |ops|
  {
    if ops != [] {
      RunStaysHealthy(s, ops[..|ops| - 1]);
      StepMovesForward(Run(s, ops[..|ops| - 1]), ops[|ops| - 1]);
    }
  }

  /** From any point of any run to any later one nothing goes back, even past calls that left a
      log ahead: a decided candidate never changes, a claim's status only moves on from ACTIVE
      through SUPERSEDED to INVALIDATED, and every promoted candidate names a claim that says
      what it proposed. */
  lemma {:induction false} RunMovesForward(s: Live, ops: seq<Op>, k: nat)
    requires Fresh(s) && k <= |ops|
    ensures Forward(Run(s, ops[..k]).db, Run(s, ops).db)
    ensures CandidatesSound(Run(s, ops).db) && ConfidencesWithin(Run(s, ops).db.core.claims)
    decreases |ops|
  {
    assert Healthy(s.db, s.lastId);
    RunStaysHealthy(s, ops);
    if k < |ops| {
      var front, op := ops[..|ops| - 1], ops[|ops| - 1];
      RunMovesForward(s, front, k);
      assert front[..k] == ops[..k];
      RunStaysHealthy(s, front);
      OneCallForward(Run(s, ops[..k]).db, Run(s, front), op, Run(s, ops));
    } else {
      assert ops[..k] == ops;
    }
  }

  lemma OneCallForward(start: Database, s: Live, op: Op, t: Live)
    requires Healthy(s.db, s.lastId) && Forward(start, s.db) && t == Step(s, op).live
    ensures Forward(start, t.db)
  {
    StepMovesForward(s, op);
    ForwardCompose(start, s.db, t.db);
  }

  // ----- a line met again -----

  /** The database replay has reached after the first `n` lines. */
  ghost function ReplayedTo(seed: Database, lines: seq<LogRecord>, n: nat): Option<Database>
    requires n <= |lines|
  {
    ReplayLines(seed, lines[..n])
  }

  lemma {:induction false} PrefixReplays(db: Database, lines: seq<LogRecord>, n: nat)
    requires ReplayLines(db, lines).Some? && n <= |lines|
    ensures ReplayedTo(db, lines, n).Some?
    decreases |lines|
  {
    if n == |lines| {
      assert lines[..n] == lines;
    } else {
      PrefixReplays(db, lines[..|lines| - 1], n);
      assert lines[..|lines| - 1][..n] == lines[..n];
    }
  }

  lemma {:induction false} CarefulPrefix(core: ClaimTables, log: seq<LogRecord>, n: nat)
    requires CarefulLog(core, log) && n < |log|
    ensures ReplayCore(core, log[..n]).Some? && Careful(ReplayCore(core, log[..n]).value.claims, log[n])
    decreases |log|
  {
    if n < |log| - 1 {
      CarefulPrefix(core, log[..|log| - 1], n);
      assert log[..|log| - 1][..n] == log[..n];
    }
  }

  lemma {:induction false} OnlyOneSeries(core: ClaimTables, t: EventTables, n: ObservationTables, ids: set<int>,
                                         log: seq<LogRecord>, events: seq<LogRecord>, notes: seq<LogRecord>, i: nat)
    ensures ReplayCore(core, log).Some? && i < |log| ==> SeriesOf(log[i]) == ClaimLog
    ensures ReplayEpisodic(t, ids, events).Some? && i < |events| ==> SeriesOf(events[i]) == EventLog
    ensures ReplayNotes(n, notes).Some? && i < |notes| ==> SeriesOf(notes[i]) == ObservationLog
    decreases |log| + |events| + |notes|
  {
    if i < |log| - 1 { OnlyOneSeries(core, t, n, ids, log[..|log| - 1], [], [], i); }
    if i < |events| - 1 { OnlyOneSeries(core, t, n, ids, [], events[..|events| - 1], [], i); }
    if i < |notes| - 1 { OnlyOneSeries(core, t, n, ids, [], [], notes[..|notes| - 1], i); }
  }

  lemma ReplayIsCareful(seed: Database, s: Live, n: nat)
    requires Invariant(seed, s) && n < |ReplayOrder(s)|
    requires ReplayedTo(seed, ReplayOrder(s), n).Some?
    ensures Careful(ReplayedTo(seed, ReplayOrder(s), n).value.core.claims, ReplayOrder(s)[n])
  {
    if n < |s.log| {
      ClaimLogIsCareful(seed, s, n);
    } else {
      LaterSeries(seed, s, n);
      OtherSeriesAreCareful(ReplayedTo(seed, ReplayOrder(s), n).value.core.claims, ReplayOrder(s)[n]);
    }
  }

  lemma ClaimLogIsCareful(seed: Database, s: Live, n: nat)
    requires CarefulLog(seed.core, s.log) && n < |s.log|
    requires ReplayedTo(seed, ReplayOrder(s), n).Some?
    ensures Careful(ReplayedTo(seed, ReplayOrder(s), n).value.core.claims, ReplayOrder(s)[n])
  {
    assert ReplayOrder(s)[..n] == s.log[..n] && ReplayOrder(s)[n] == s.log[n];
    CarefulPrefix(seed.core, s.log, n);
    ReplayClaimLog(seed, s.log[..n]);
  }

  lemma LaterSeries(seed: Database, s: Live, n: nat)
    requires Rebuilt(seed, s) && |s.log| <= n < |ReplayOrder(s)|
    ensures SeriesOf(ReplayOrder(s)[n]) != ClaimLog
  {
    if n < |s.log| + |s.events| {
      OnlyOneSeries(seed.core, seed.episodic, seed.notes, s.db.core.claims.Keys, [], s.events, [], n - |s.log|);
    } else {
      OnlyOneSeries(seed.core, seed.episodic, seed.notes, {}, [], [], s.observations, n - |s.log| - |s.events|);
    }
  }

  lemma OtherSeriesAreCareful(claims: Claims, r: LogRecord)
    requires SeriesOf(r) != ClaimLog
    ensures Careful(claims, r)
  {
  }

  lemma NextLine(db: Database, lines: seq<LogRecord>, n: nat)
    requires n < |lines| && ReplayedTo(db, lines, n + 1).Some?
    ensures ReplayedTo(db, lines, n).Some?
    ensures ApplyRecord(ReplayedTo(db, lines, n).value, lines[n])
         == Outcome(ReplayedTo(db, lines, n + 1).value, Ok(Applied))
  {
    assert lines[..n + 1][..n] == lines[..n] && lines[..n + 1][n] == lines[n];
  }

  /** Each line moves the replayed database forward. */
  lemma ReplayMovesForward(seed: Database, s: Live, n: nat)
    requires Invariant(seed, s) && n < |ReplayOrder(s)|
    ensures ReplayedTo(seed, ReplayOrder(s), n).Some? && ReplayedTo(seed, ReplayOrder(s), n + 1).Some?
    ensures var before := ReplayedTo(seed, ReplayOrder(s), n).value;
            && ApplyRecord(before, ReplayOrder(s)[n]) ==
                Outcome(ReplayedTo(seed, ReplayOrder(s), n + 1).value, Ok(Applied))
            && Forward(before, ReplayedTo(seed, ReplayOrder(s), n + 1).value)
  {
    var lines := ReplayOrder(s);
    SeriesBySeries(seed, s);
    PrefixReplays(seed, lines, n + 1);
    NextLine(seed, lines, n);
    ReplayIsCareful(seed, s, n);
    RecordMovesForward(ReplayedTo(seed, lines, n).value, lines[n]);
  }

  /** No embedding is backfilled between the two places for the chunk the line adds. */
  ghost predicate NotBackfilled(lines: seq<LogRecord>, i: nat, j: nat)
    requires i < j <= |lines|
  {
    forall k :: i < k < j && lines[i].AddVectorChunk? && lines[k].EmbedVectorChunk? ==>
        lines[k].chunkId != lines[i].chunkId
  }

  /** A line of a live run's logs met again at any later place of the replay is a duplicate that
      changes nothing, whatever lies between; an add_vector_chunk line needs that no embedding
      was backfilled for its chunk in between. */
  lemma RepeatedLineIsDuplicate(seed: Database, s: Live, i: nat, j: nat)
    requires Invariant(seed, s) && i < j <= |ReplayOrder(s)|
    requires Recognised(ReplayOrder(s)[i])
    requires forall k :: i < k < j && ReplayOrder(s)[i].AddVectorChunk? && ReplayOrder(s)[k].EmbedVectorChunk? ==>
               ReplayOrder(s)[k].chunkId != ReplayOrder(s)[i].chunkId
    ensures ReplayedTo(seed, ReplayOrder(s), j).Some?
    ensures Absorbs(ReplayedTo(seed, ReplayOrder(s), j).value, ReplayOrder(s)[i])
  {
    StaysAbsorbed(seed, s, i, j, j);
  }

  lemma {:induction false} StaysAbsorbed(seed: Database, s: Live, i: nat, k: nat, j: nat)
    requires Invariant(seed, s) && i < k <= j <= |ReplayOrder(s)|
    requires Recognised(ReplayOrder(s)[i]) && NotBackfilled(ReplayOrder(s), i, j)
    ensures AbsorbsWhere(ReplayedTo(seed, ReplayOrder(s), k), ReplayOrder(s)[i])
    decreases k
  {
    if k == i + 1 {
      AbsorbedAtOnce(seed, s, i, k);
    } else {
      var before := k - 1;
      StaysAbsorbed(seed, s, i, before, j);
      AbsorbedOneLineLater(seed, s, i, before, k, j);
    }
  }

  lemma AbsorbedAtOnce(seed: Database, s: Live, i: nat, k: nat)
    requires Invariant(seed, s) && i < |ReplayOrder(s)| && k == i + 1 && Recognised(ReplayOrder(s)[i])
    ensures AbsorbsWhere(ReplayedTo(seed, ReplayOrder(s), k), ReplayOrder(s)[i])
  {
    var lines := ReplayOrder(s);
    ReplayMovesForward(seed, s, i);
    assert ReplayedTo(seed, lines, k) == ReplayedTo(seed, lines, i + 1);
    AppliedIsAbsorbed(ReplayedTo(seed, lines, i).value, lines[i]);
  }

  lemma AbsorbedOneLineLater(seed: Database, s: Live, i: nat, k: nat, next: nat, j: nat)
    requires Invariant(seed, s) && i < k < j <= |ReplayOrder(s)| && next == k + 1
    requires Recognised(ReplayOrder(s)[i]) && NotBackfilled(ReplayOrder(s), i, j)
    requires AbsorbsWhere(ReplayedTo(seed, ReplayOrder(s), k), ReplayOrder(s)[i])
    ensures AbsorbsWhere(ReplayedTo(seed, ReplayOrder(s), next), ReplayOrder(s)[i])
  {
    var lines := ReplayOrder(s);
    ReplayMovesForward(seed, s, k);
    assert ReplayedTo(seed, lines, next) == ReplayedTo(seed, lines, k + 1);
    StillAbsorbed(ReplayedTo(seed, lines, k).value, lines[i], lines[k], ReplayedTo(seed, lines, next).value);
  }

  lemma StillAbsorbed(before: Database, r: LogRecord, other: LogRecord, after: Database)
    requires Recognised(r) && Absorbs(before, r) && Forward(before, after)
    requires ApplyRecord(before, other) == Outcome(after, Ok(Applied))
    requires r.AddVectorChunk? && other.EmbedVectorChunk? ==> other.chunkId != r.chunkId
    ensures Absorbs(after, r)
  {
    OtherLinesKeepEmbedding(before, r, other);
    AbsorptionLasts(before, after, r);
  }

  /** The same of any run of live calls from a fresh store. */
  lemma LiveRunRepeatsAreDuplicates(s: Live, ops: seq<Op>, i: nat, j: nat)
    requires Fresh(s) && Succeeds(s, ops)
    requires var lines := ReplayOrder(Run(s, ops));
             && i < j <= |lines| && Recognised(lines[i])
             && forall k :: i < k < j && lines[i].AddVectorChunk? && lines[k].EmbedVectorChunk? ==>
                  lines[k].chunkId != lines[i].chunkId
    ensures var lines := ReplayOrder(Run(s, ops));
            && ReplayedTo(s.db, lines, j).Some? && Absorbs(ReplayedTo(s.db, lines, j).value, lines[i])
  {
    RunKeepsInvariant(s, ops);
    RepeatedLineIsDuplicate(s.db, Run(s, ops), i, j);
  }

  lemma OtherLinesKeepEmbedding(db: Database, r: LogRecord, other: LogRecord)
    requires ApplyRecord(db, other).result == Ok(Applied)
    requires r.AddVectorChunk? && other.EmbedVectorChunk? ==> other.chunkId != r.chunkId
    ensures SameEmbedding(db.core, ApplyRecord(db, other).state.core, r)
  {
    if other.AddHyperedge? && other.hyperedgeId !in db.core.hyperedges {
      var o := InsertHyperedge(db.core, other, ParseProvenance(other.provenanceName).value);
    } else if other.AddClaim? && other.claimId !in db.core.claims {
      var kind := ParseAgentKind(other.agentKind).value;
      var o := InsertClaim(db.core, other, kind, StatedProvenance(other, kind).value);
    }
  }
}
