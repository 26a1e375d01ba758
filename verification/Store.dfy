/** The live writers as methods of one store object: each validates, mints an id, appends its
    lines and applies them inside a transaction, and is proved to take the step Writers gives. */
module Store {
  import opened Prelude
  import opened Records
  import opened PredicateFilter
  import opened Projection
  import opened Connection
  import opened Consolidation
  import opened Compaction
  import opened Writers
  import opened Report
  import opened Calls
  import opened Runs
  import opened LiveRuns

  class Store {
    const conn: Connection
    var lastId: int
    var log: seq<LogRecord>
    var events: seq<LogRecord>
    var observations: seq<LogRecord>

    ghost predicate Valid()
      reads this, conn, conn.predicates
    {
      conn.Valid()
    }

    ghost function State(): Live
      reads this, conn, conn.predicates
    {
      Live(conn.Snapshot(), lastId, log, events, observations)
    }

    constructor (conn: Connection, seed: int)
      requires conn.Valid()
      ensures this.conn == conn && Valid()
      ensures State() == Live(conn.Snapshot(), if seed > 0 then seed else 0, [], [], [])
    {
      this.conn := conn;
      lastId := if seed > 0 then seed else 0;
      log, events, observations := [], [], [];
    }

    /** IdGen::mint: strictly above every id minted before. */
    method MintId(tick: nat) returns (id: int)
      modifies this`lastId
      ensures id == lastId == Mint(old(lastId), tick) && id > old(lastId)
    {
      lastId := Mint(lastId, tick);
      id := lastId;
    }

    /** append_jsonl to the file of a series. */
    method AppendJsonl(series: Series, r: LogRecord)
      requires series == SeriesOf(r)
      modifies this`log, this`events, this`observations
      ensures State() == AppendLine(old(State()), r)
    {
      match series {
        case ClaimLog => log := log + [r];
        case EventLog => events := events + [r];
        case ObservationLog => observations := observations + [r];
      }
    }

    /** One line inside the caller's transaction. */
    method LogAndApply(series: Series, r: LogRecord) returns (result: Result<Applied, Error>)
      requires Valid() && series == SeriesOf(r)
      modifies this`log, this`events, this`observations, conn, conn.predicates
      ensures Valid() && result == ApplyRecord(old(conn.Snapshot()), r).result
      ensures State() == Logged(old(State()), r)
    {
      AppendJsonl(series, r);
      result := conn.Apply(r);
    }

    /** BEGIN IMMEDIATE, append, apply, then COMMIT or ROLLBACK. */
    method LogAndCommit(series: Series, r: LogRecord) returns (status: Status)
      requires Valid() && series == SeriesOf(r)
      modifies this`log, this`events, this`observations, conn, conn.predicates
      ensures Valid() && Stepped(State(), status) == Commit(old(State()), [r])
    {
      var savepoint := conn.Snapshot();
      AppendJsonl(series, r);
      CommitOne(old(State()), r);
      var result := conn.Apply(r);
      match result {
        case Err(_) => conn.Restore(savepoint); status := LogAhead;
        case Ok(Applied) => status := Committed;
        case Ok(Duplicate) => status := Repeated;
      }
    }

    /** Observation records are appended and applied without a transaction: a failing one
        writes nothing. */
    method LogNote(r: LogRecord) returns (status: Status)
      requires Valid() && SeriesOf(r) == ObservationLog
      modifies this`log, this`events, this`observations, conn, conn.predicates
      ensures Valid() && Stepped(State(), status) == Commit(old(State()), [r])
    {
      AppendJsonl(ObservationLog, r);
      CommitOne(old(State()), r);
      var result := conn.Apply(r);
      status := match result { case Err(_) => LogAhead case Ok(Applied) => Committed case Ok(Duplicate) => Repeated };
    }

    method InsertClaim(ts: int, tick: nat, w: ClaimWrite) returns (status: Status, id: Option<int>)
      requires Valid()
      modifies this, conn, conn.predicates
      ensures Valid() && Stepped(State(), status) == Step(old(State()), WriteClaim(ts, tick, w))
      ensures id == if status == Committed then Some(lastId) else None
      ensures status == Unchanged <==> !ClaimWelcome(old(conn.Core()), w)
      ensures status == Committed ==> ClaimWritten(old(conn.claims), conn.claims, lastId, ts, w)
    {
      WriteClaimCall(State(), ts, tick, w);
      if !ClaimAllowed(conn.Core(), w) { return Unchanged, None; }
      var minted := MintId(tick);
      status := LogAndCommit(ClaimLog, ClaimRecord(ts, minted, w));
      id := if status == Committed then Some(minted) else None;
    }

    method InsertHyperedge(ts: int, tick: nat, predicate_: string, provenance: Provenance, confidence: real,
                           sourceRefs: seq<string>, participants: seq<Participant>)
      returns (status: Status, id: Option<int>)
      requires Valid()
      modifies this, conn, conn.predicates
      ensures Valid() && Stepped(State(), status)
           == Step(old(State()), WriteHyperedge(ts, tick, predicate_, provenance, confidence, sourceRefs, participants))
      ensures id == if status == Committed then Some(lastId) else None
    {
      var op := WriteHyperedge(ts, tick, predicate_, provenance, confidence, sourceRefs, participants);
      if !HyperedgeAllowed(conn.Core(), op) { return Unchanged, None; }
      var minted := MintId(tick);
      status := LogAndCommit(ClaimLog,
        AddHyperedge(ts, minted, predicate_, provenance.Name(), confidence, sourceRefs, participants));
      id := if status == Committed then Some(minted) else None;
    }

    method RecordEvent(ts: int, tick: nat, session: string, kind: string, payload: string, source: string,
                       agentId: string, agentKind: AgentKind, scope: string) returns (status: Status, id: Option<int>)
      requires Valid()
      modifies this, conn, conn.predicates
      ensures Valid() && Stepped(State(), status)
           == Step(old(State()), WriteEvent(ts, tick, session, kind, payload, source, agentId, agentKind, scope))
      ensures id == if status == Committed then Some(lastId) else None
    {
      if Blank(session) || Blank(kind) || Blank(source) || !ValidAgentId(agentId) || !ValidScope(scope) {
        return Unchanged, None;
      }
      var minted := MintId(tick);
      status := LogAndCommit(EventLog,
        LogRecord.RecordEvent(ts, minted, session, kind, payload, source, agentId, agentKind.Name(), scope));
      id := if status == Committed then Some(minted) else None;
    }

    /** A known observation is returned without a line; one that only shares the hash is refused. */
    method RecordObservation(ts: int, hash: string, session: string, content: string, relevance: string,
                             eventIds: seq<int>, derivation: string, scope: string)
      returns (status: Status, id: Option<string>)
      requires Valid()
      modifies this, conn, conn.predicates
      ensures Valid() && Stepped(State(), status)
           == Step(old(State()), WriteObservation(ts, hash, session, content, relevance, eventIds, derivation, scope))
      ensures var plan := PlanOf(old(State()),
                                 WriteObservation(ts, hash, session, content, relevance, eventIds, derivation, scope));
              id == if status == Committed || plan == Nothing then Some(hash) else None
    {
      if Blank(session) || Blank(content) || Blank(derivation) || !ValidScope(scope) || !KnownRelevance(relevance) {
        return Unchanged, None;
      }
      if eventIds == [] { return Unchanged, None; }
      for i := 0 to |eventIds|
        invariant forall k :: 0 <= k < i ==> eventIds[k] in conn.events && conn.events[eventIds[k]].sessionId == session
      {
        if eventIds[i] !in conn.events || conn.events[eventIds[i]].sessionId != session { return Unchanged, None; }
      }
      if hash in conn.observations {
        var row := conn.observations[hash];
        return Unchanged,
               if row.sessionId == session && row.content == content && row.sourceEventIds == eventIds then Some(hash)
               else None;
      }
      var first := conn.events[eventIds[0]];
      status := LogNote(LogRecord.RecordObservation(ts, hash, session, content, relevance, eventIds,
                                                    first.agentId, first.agentKind.Name(), derivation, scope));
      id := if status == Committed then Some(hash) else None;
    }

    method PruneObservations(ts: int, hash: string, session: string, keep: nat) returns (status: Status, dropped: nat)
      requires Valid()
      modifies this, conn, conn.predicates
      ensures Valid() && Stepped(State(), status) == Step(old(State()), Prune(ts, hash, session, keep))
      ensures status == Committed ==>
                dropped + keep == old(|Visible(conn.Snapshot().notes, session)|)
    {
      if Blank(session) { return Unchanged, 0; }
      var db := conn.Snapshot();
      ghost var before := State();
      var drop := PruneChoice(db.episodic, db.notes, session, keep);
      if drop == [] { return Unchanged, 0; }
      dropped := |drop|;
      var record := LogRecord.PruneObservations(ts, hash, session, drop);
      assert PlanOf(before, Prune(ts, hash, session, keep)) == Write(lastId, [record]);
      assert before.(lastId := lastId) == before;
      status := LogNote(record);
    }

    method RetireClaim(ts: int, claimId: int, reason: string) returns (status: Status)
      requires Valid()
      modifies this, conn, conn.predicates
      ensures Valid() && Stepped(State(), status) == Step(old(State()), Retire(ts, claimId, reason))
    {
      if Blank(reason) || claimId !in conn.claims || conn.claims[claimId].status == Invalidated { return Unchanged; }
      status := LogAndCommit(ClaimLog, LogRecord.RetireClaim(ts, claimId, reason));
    }

    method RecordContradiction(ts: int, tick: nat, claimId: int, reason: string, replaced: bool)
      returns (status: Status, id: Option<int>)
      requires Valid() && (replaced ==> lastId in conn.claims && lastId != claimId)
      modifies this, conn, conn.predicates
      ensures Valid()
              && Stepped(State(), status) == Step(old(State()), Op.Contradict(ts, tick, claimId, reason, replaced))
      ensures id == if status == Committed then Some(lastId) else None
    {
      if Blank(reason) || claimId !in conn.claims { return Unchanged, None; }
      var newClaim := if replaced then Some(lastId) else None;
      var minted := MintId(tick);
      status := LogAndCommit(ClaimLog, AddContradiction(ts, minted, claimId, reason, newClaim));
      id := if status == Committed then Some(minted) else None;
    }

    /** contradict: an optional replacement claim first, then the contradiction naming it. */
    method Contradict(ts: int, tick: nat, claimId: int, reason: string, replacement: Option<ClaimWrite>,
                      laterTs: int, laterTick: nat)
      returns (status: Status, id: Option<int>)
      requires Valid()
      modifies this, conn, conn.predicates
      ensures Valid() && Stepped(State(), status)
           == ContradictStep(old(State()), ts, tick, claimId, reason, replacement, laterTs, laterTick)
      ensures id == if status == Committed then Some(lastId) else None
    {
      if Blank(reason) || claimId !in conn.claims { return Unchanged, None; }
      if replacement.None? {
        status, id := RecordContradiction(laterTs, laterTick, claimId, reason, false);
      } else {
        ghost var before := State();
        var newClaim;
        status, newClaim := InsertClaim(ts, tick, replacement.value);
        if status == Committed {
          CommittedClaimIsNew(before, ts, tick, replacement.value);
          status, id := RecordContradiction(laterTs, laterTick, claimId, reason, true);
        } else {
          id := None;
        }
      }
    }

    method ProposeCandidate(ts: int, tick: nat, eventId: int, subject: string, predicate_: string, object_: string,
                            scope: string) returns (status: Status, id: Option<int>)
      requires Valid()
      modifies this, conn, conn.predicates
      ensures Valid() && Stepped(State(), status)
           == Step(old(State()), Propose(ts, tick, eventId, subject, predicate_, object_, scope))
      ensures id == if status == Committed then Some(lastId) else None
    {
      if eventId !in conn.events || Blank(subject) || Blank(predicate_) || Blank(object_) || !ValidScope(scope) {
        return Unchanged, None;
      }
      var minted := MintId(tick);
      status := LogAndCommit(EventLog,
        LogRecord.ProposeCandidate(ts, minted, eventId, subject, predicate_, object_, scope));
      id := if status == Committed then Some(minted) else None;
    }

    /** Both lines are appended before either is applied, one to each log. A candidate promoted before
        is answered with its claim. */
    method PromoteCandidate(ts: int, tick: nat, candidateId: int, attribution: Option<(Provenance, real)>,
                            decision: Option<Decision>) returns (status: Status, id: Option<int>)
      requires Valid()
      modifies this, conn, conn.predicates
      ensures Valid() && Stepped(State(), status)
           == Step(old(State()), Promote(ts, tick, candidateId, attribution, decision))
      ensures id == if status == Committed then Some(lastId)
                    else if PlanOf(old(State()), Promote(ts, tick, candidateId, attribution, decision)) == Nothing
                    then old(conn.candidates)[candidateId].promotedClaimId
                    else None
    {
      PromotionStep(State(), Promote(ts, tick, candidateId, attribution, decision));
      if candidateId !in conn.candidates { return Unchanged, None; }
      var c := conn.candidates[candidateId];
      if c.status == Rejected { return Unchanged, None; }
      if c.promotedClaimId.Some? { return Unchanged, c.promotedClaimId; }
      if c.eventId !in conn.events { return Unchanged, None; }
      var event := conn.events[c.eventId];
      var (provenance, confidence) := if attribution.Some? then attribution.value else (Inferred, 0.45);
      if !OntologyAllows(conn.Core(), c.predicate_, provenance) { return Unchanged, None; }
      status := WritePromotion(ts, tick, candidateId, c, event, provenance, confidence, decision);
      id := if status == Committed then Some(lastId) else None;
    }

    method WritePromotion(ts: int, tick: nat, candidateId: int, c: CandidateRow, event: EventRow,
                          provenance: Provenance,
                          confidence: real, decision: Option<Decision>) returns (status: Status)
      requires Valid()
      modifies this, conn, conn.predicates
      ensures Valid() && lastId == Mint(old(lastId), tick)
      ensures Stepped(State(), status) == Commit(old(State()).(lastId := lastId),
                [PromotedClaim(ts, lastId, c, event, provenance, confidence),
                 LogRecord.PromoteCandidate(ts, candidateId, lastId, decision)])
    {
      var minted := MintId(tick);
      status := CommitPair(PromotedClaim(ts, minted, c, event, provenance, confidence),
                           LogRecord.PromoteCandidate(ts, candidateId, minted, decision));
    }

    method CommitPair(claim: LogRecord, promotion: LogRecord) returns (status: Status)
      requires Valid() && SeriesOf(claim) == ClaimLog && SeriesOf(promotion) == EventLog
      modifies this`log, this`events, this`observations, conn, conn.predicates
      ensures Valid() && Stepped(State(), status) == Commit(old(State()), [claim, promotion])
    {
      var savepoint := conn.Snapshot();
      CommitTwo(State(), claim, promotion);
      AppendJsonl(ClaimLog, claim);
      AppendJsonl(EventLog, promotion);
      var first := conn.Apply(claim);
      if first.Err? {
        conn.Restore(savepoint);
        return LogAhead;
      }
      var second := conn.Apply(promotion);
      if second.Err? {
        conn.Restore(savepoint);
        return LogAhead;
      }
      status := if first.value == Applied && second.value == Applied then Committed else Repeated;
    }

    method RejectCandidate(ts: int, candidateId: int, reason: string, decision: Option<Decision>)
      returns (status: Status, refused: bool)
      requires Valid()
      modifies this, conn, conn.predicates
      ensures Valid() && Stepped(State(), status) == Step(old(State()), Reject(ts, candidateId, reason, decision))
      ensures refused <==> TurnedDown(old(State()), Reject(ts, candidateId, reason, decision))
    {
      RejectionStep(State(), Reject(ts, candidateId, reason, decision));
      TextChecks(reason);
      if candidateId !in conn.candidates || Blank(reason) || conn.candidates[candidateId].status == Promoted {
        return Unchanged, true;
      }
      refused := false;
      if conn.candidates[candidateId].status == Rejected {
        return Unchanged, conn.candidates[candidateId].rejectionReason != Some(reason);
      }
      status := LogAndCommit(EventLog, LogRecord.RejectCandidate(ts, candidateId, reason, decision));
    }

    method InsertVectorChunk(ts: int, tick: nat, claimId: int, text: string, model: string,
                             embedding: Option<seq<real>>)
      returns (status: Status, id: Option<int>)
      requires Valid()
      modifies this, conn, conn.predicates
      ensures Valid()
      ensures Stepped(State(), status) == Step(old(State()), WriteChunk(ts, tick, claimId, text, model, embedding))
      ensures id == if status == Committed then Some(lastId) else None
    {
      ChunkStep(State(), ts, tick, claimId, text, model, embedding);
      if claimId !in conn.claims || Blank(text) || Blank(model) || embedding == Some([]) { return Unchanged, None; }
      var minted := MintId(tick);
      status := LogAndCommit(ClaimLog, AddVectorChunk(ts, minted, claimId, text, model, embedding));
      id := if status == Committed then Some(minted) else None;
    }

    method BackfillEmbedding(ts: int, chunkId: int, vector: seq<real>) returns (status: Status)
      requires Valid()
      modifies this, conn, conn.predicates
      ensures Valid() && Stepped(State(), status) == Step(old(State()), Backfill(ts, chunkId, vector))
    {
      if chunkId !in conn.chunks || conn.chunks[chunkId].embedding.Some? { return Unchanged; }
      status := LogAndCommit(ClaimLog, EmbedVectorChunk(ts, chunkId, vector));
    }

    // ----- consolidation -----

    /** One duplicate group's merged references, grown in place. */
    method CollectRefs(claims: Claims, id: int) returns (refs: seq<string>)
      requires id in claims
      ensures refs == MergedRefs(claims, id)
    {
      refs := [];
      var ids := GroupListing(claims, id);
      for i := 0 to |ids|
        invariant UnionAll(claims, refs, ids[i..]) == UnionAll(claims, [], ids)
      {
        assert ids[i..][0] == ids[i] && ids[i..][1..] == ids[i + 1..];
        refs := GrowRefs(refs, claims[ids[i]].sourceRefs);
      }
    }

    /** The inner loop: one claim's references. */
    method GrowRefs(before: seq<string>, more: seq<string>) returns (refs: seq<string>)
      ensures refs == Union(before, more)
    {
      refs := before;
      for j := 0 to |more|
        invariant Union(refs, more[j..]) == Union(before, more)
      {
        assert more[j..][0] == more[j] && more[j..][1..] == more[j + 1..];
        if more[j] !in refs {
          refs := refs + [more[j]];
        }
      }
    }

    /** The line for one duplicate group of the claims as they stand. */
    method BuildMergeRecord(ts: int, id: int) returns (record: LogRecord)
      requires id in conn.claims
      ensures record == MergeRecord(ts, conn.claims, id) && record.MergeSourceRefs?
    {
      var refs := CollectRefs(conn.claims, id);
      record := MergeSourceRefs(ts, id, refs, conn.claims[id].provenance == Inferred && |refs| >= 2);
    }

    method MergeGroup(ts: int, id: int)
      requires Valid() && id in conn.claims
      modifies this`log, this`events, this`observations, conn, conn.predicates
      ensures Valid() && State() == Logged(old(State()), MergeRecord(ts, old(conn.claims), id))
    {
      ghost var before, wanted := State(), MergeRecord(ts, conn.claims, id);
      var record := BuildMergeRecord(ts, id);
      assert record == wanted && SeriesOf(record) == ClaimLog;
      var result := LogAndApply(ClaimLog, record);
      assert State() == Logged(before, wanted);
    }

    method MergeGroups(ts: int, ids: seq<int>)
      requires Valid() && AllIn(ids, conn.claims)
      modifies this`log, this`events, this`observations, conn, conn.predicates
      ensures Valid() && State() == MergeEach(old(State()), ts, ids)
    {
      for i := 0 to |ids|
        invariant Valid() && AllIn(ids, conn.claims)
        invariant MergeEach(State(), ts, ids[i..]) == MergeEach(old(State()), ts, ids)
      {
        assert ids[i..][0] == ids[i] && ids[i..][1..] == ids[i + 1..];
        MergeKeepsIds(State(), ts, ids[i]);
        MergeGroup(ts, ids[i]);
      }
    }

    /** merge_duplicate_source_refs: one line per duplicate group, none of which can fail. */
    method MergeDuplicateSourceRefs(ts: int) returns (status: Status, merged: nat)
      requires Valid()
      modifies this, conn, conn.predicates
      ensures Valid() && Stepped(State(), status) == Step(old(State()), MergeDuplicates(ts))
      ensures merged == |Survivors(old(conn.claims))|
      ensures conn.Snapshot() == WithClaims(old(conn.Snapshot()), MergePass(old(conn.claims)))
    {
      var ids := Ascending(Survivors(conn.claims));
      ghost var before := State();
      merged := |ids|;
      if ids == [] {
        MergePlan(before, ts);
        StepOfPlan(before, MergeDuplicates(ts));
        NothingMerged(conn.claims);
        assert Survivors(conn.claims) == {};
        return Unchanged, 0;
      }
      MergeFinished(before, ts);
      MergeGroups(ts, ids);
      status := Committed;
    }

    /** decay_contradicted_confidence. */
    method DecayContradictedConfidence(ts: int) returns (status: Status, decayed: nat)
      requires Valid()
      modifies this, conn, conn.predicates
      ensures Valid() && Stepped(State(), status) == Step(old(State()), DecayContradicted(ts))
      ensures DecaySays(old(conn.Snapshot()), conn.Snapshot(), status, decayed)
    {
      var targets := DecayTargets(conn.claims, ContradictedIds(conn.contradictions));
      DecayStep(State(), ts);
      DecayStepLowers(State(), ts);
      if targets == {} { return Unchanged, 0; }
      status := LogAndCommit(ClaimLog, DecayRecord(ts, conn.claims, targets));
      decayed := |targets|;
    }

    /** supersede_claim_ids inside the caller's transaction; an empty list logs nothing. */
    method SupersedeClaimIds(ts: int, ids: set<int>) returns (count: nat)
      requires Valid() && ids <= ActiveIds(conn.claims)
      modifies this`log, this`events, this`observations, conn, conn.predicates
      ensures Valid() && count == |ids|
      ensures State() == AppendAll(old(State()), SupersedeRecords(ts, ids)).(
                db := WithClaims(old(conn.Snapshot()), WithSuperseded(old(conn.claims), ids)))
    {
      ghost var before := State();
      SupersedeLine(before.db, lastId, ids, ts);
      if ids == {} {
        assert WithSuperseded(conn.claims, {}) == conn.claims;
        return 0;
      }
      var record := LogRecord.SupersedeClaims(ts, Ascending(ids));
      assert SupersedeRecords(ts, ids) == [record];
      CommitOne(before, record);
      assert ApplyAll(before.db, [record]) == ApplyRecord(before.db, record);
      AppendJsonl(ClaimLog, record);
      var result := conn.Apply(record);
      count := |ids|;
    }

    /** The two supersede queries of consolidate_report, in one transaction that cannot fail. */
    method SupersedeStaleClaims(ts: int) returns (status: Status, superseded: nat)
      requires Valid()
      modifies this, conn, conn.predicates
      ensures Valid() && Stepped(State(), status) == Step(old(State()), SupersedeStale(ts))
      ensures conn.Snapshot() == WithClaims(old(conn.Snapshot()),
                ConflictPass(old(conn.Core()).vocabulary, DuplicatePass(old(conn.claims))))
      ensures superseded == |DuplicateIds(old(conn.claims))|
                + |ConflictIds(old(conn.Core()).vocabulary, DuplicatePass(old(conn.claims)))|
    {
      ghost var before := State();
      ghost var single := DuplicatePass(conn.claims);
      ghost var duplicateIds := DuplicateIds(conn.claims);
      ghost var conflictIds := ConflictIds(conn.Core().vocabulary, single);
      StaleStep(before, ts, single, duplicateIds, conflictIds);
      var duplicates := SupersedeClaimIds(ts, DuplicateIds(conn.claims));
      ghost var middle := State();
      var conflicts := SupersedeClaimIds(ts, ConflictIds(conn.Core().vocabulary, conn.claims));
      AppendIgnoresDatabase(AppendAll(before, SupersedeRecords(ts, duplicateIds)), middle.db,
                            SupersedeRecords(ts, conflictIds));
      superseded := duplicates + conflicts;
      status := if superseded == 0 then Unchanged else Committed;
    }
  }

  /** The step the two supersede queries take: both lists logged and applied, or nothing when both are empty. */
  lemma StaleStep(before: Live, ts: int, single: Claims, duplicates: set<int>, conflicts: set<int>)
    requires duplicates == DuplicateIds(before.db.core.claims) && single == DuplicatePass(before.db.core.claims)
    requires conflicts == ConflictIds(before.db.core.vocabulary, single)
    ensures Step(before, SupersedeStale(ts)) ==
            Stepped(AppendAll(AppendAll(before, SupersedeRecords(ts, duplicates)), SupersedeRecords(ts, conflicts)).(
                      db := WithClaims(before.db, WithSuperseded(single, conflicts))),
                    if |duplicates| + |conflicts| == 0 then Unchanged else Committed)
  {
    var first, second := SupersedeRecords(ts, duplicates), SupersedeRecords(ts, conflicts);
    StalePlan(before, ts, single, duplicates, conflicts);
    StaleLinesApply(before, ts, single, duplicates, conflicts);
    if |duplicates| + |conflicts| == 0 { NothingStale(before.db.core.claims, before.db.core.vocabulary); }
    NoRecordsNoIds(ts, duplicates, conflicts);
    StalePlanned(before, SupersedeStale(ts), first, second, WithSuperseded(single, conflicts));
  }

  lemma StalePlan(before: Live, ts: int, single: Claims, duplicates: set<int>, conflicts: set<int>)
    requires duplicates == DuplicateIds(before.db.core.claims) && single == DuplicatePass(before.db.core.claims)
    requires conflicts == ConflictIds(before.db.core.vocabulary, single)
    ensures var records := SupersedeRecords(ts, duplicates) + SupersedeRecords(ts, conflicts);
            PlanOf(before, SupersedeStale(ts)) == if records == [] then Nothing else Write(before.lastId, records)
  {
    SweepIsPlanned(before, SupersedeStale(ts));
  }

  lemma StaleLinesApply(before: Live, ts: int, single: Claims, duplicates: set<int>, conflicts: set<int>)
    requires duplicates == DuplicateIds(before.db.core.claims) && single == DuplicatePass(before.db.core.claims)
    requires conflicts == ConflictIds(before.db.core.vocabulary, single)
    ensures ApplyAll(before.db, SupersedeRecords(ts, duplicates) + SupersedeRecords(ts, conflicts))
         == Outcome(WithClaims(before.db, WithSuperseded(single, conflicts)), Ok(Applied))
  {
    SupersedePlanIsSound(before.db, before.lastId, ts);
  }

  lemma NoRecordsNoIds(ts: int, a: set<int>, b: set<int>)
    ensures SupersedeRecords(ts, a) + SupersedeRecords(ts, b) == [] <==> |a| + |b| == 0
  {
  }

  lemma StalePlanned(before: Live, op: Op, first: seq<LogRecord>, second: seq<LogRecord>, claims: Claims)
    requires PlanOf(before, op) == if first + second == [] then Nothing else Write(before.lastId, first + second)
    requires ApplyAll(before.db, first + second) == Outcome(WithClaims(before.db, claims), Ok(Applied))
    requires first + second == [] ==> claims == before.db.core.claims
    ensures Step(before, op) ==
            Stepped(AppendAll(AppendAll(before, first), second).(db := WithClaims(before.db, claims)),
                    if first + second == [] then Unchanged else Committed)
  {
    StepOfPlan(before, op);
    AppendInTwoParts(before, first, second);
    if first + second == [] {
      assert before.(db := WithClaims(before.db, claims)) == before;
    } else {
      CommitApplied(before, first + second, WithClaims(before.db, claims));
    }
  }

  lemma NothingStale(claims: Claims, v: Vocabulary)
    requires DuplicateIds(claims) == {} && ConflictIds(v, DuplicatePass(claims)) == {}
    ensures DuplicatePass(claims) == claims && ConflictPass(v, DuplicatePass(claims)) == claims
  {
    assert WithSuperseded(claims, {}) == claims;
  }

  lemma ChunkStep(s: Live, ts: int, tick: nat, claimId: int, text: string, model: string, embedding: Option<seq<real>>)
    ensures Step(s, WriteChunk(ts, tick, claimId, text, model, embedding)) ==
            if claimId !in s.db.core.claims || Blank(text) || Blank(model) || embedding == Some([]) then
              Stepped(s, Unchanged)
            else
              Commit(s.(lastId := Mint(s.lastId, tick)),
                     [AddVectorChunk(ts, Mint(s.lastId, tick), claimId, text, model, embedding)])
  {
  }

  /** One line, appended and applied. */
  ghost function Logged(s: Live, r: LogRecord): Live {
    AppendLine(s, r).(db := ApplyRecord(s.db, r).state)
  }

  lemma MergeKeepsIds(s: Live, ts: int, id: int)
    requires id in s.db.core.claims
    ensures Logged(s, MergeRecord(ts, s.db.core.claims, id)).db.core.claims.Keys == s.db.core.claims.Keys
  {
    MergeLineKeepsIds(s, MergeRecord(ts, s.db.core.claims, id));
  }

  lemma MergeLineKeepsIds(s: Live, r: LogRecord)
    requires r.MergeSourceRefs? && r.claimId in s.db.core.claims
    ensures Logged(s, r).db.core.claims.Keys == s.db.core.claims.Keys
  {
  }

  ghost function MergeEach(s: Live, ts: int, ids: seq<int>): Live
    requires AllIn(ids, s.db.core.claims)
    decreases |ids|
  {
    if ids == [] then s
    else
      assert forall k :: 0 < k < |ids| ==> ids[k] == ids[1..][k - 1];
      MergeKeepsIds(s, ts, ids[0]);
      MergeEach(Logged(s, MergeRecord(ts, s.db.core.claims, ids[0])), ts, ids[1..])
  }

  /** Merging group after group logs and writes what the starting table decides. */
  lemma {:induction false} MergeEachIs(s: Live, ts: int, start: Claims, chosen: set<int>, ids: seq<int>, all: set<int>)
    requires chosen <= Survivors(start) && s.db.core.claims == Merged(start, chosen)
    requires AllIn(ids, start) && Distinct(ids) && all == chosen + set id | id in ids
    requires forall k :: 0 <= k < |ids| ==> ids[k] in Survivors(start) && ids[k] !in chosen
    ensures MergeEach(s, ts, ids) ==
              AppendAll(s, MergeRecords(ts, start, ids)).(db := WithClaims(s.db, Merged(start, all)))
    decreases |ids|
  {
    if ids == [] {
      assert all == chosen;
    } else {
      var r := MergeRecord(ts, start, ids[0]);
      GroupsAreIndependent(start, chosen, ids[0], ts);
      MergeLineIsSound(s.db, s.lastId, start, chosen, ids[0], ts);
      MergeTail(start, chosen, ids, all);
      var next := AppendLine(s, r).(db := WithClaims(s.db, Merged(start, chosen + {ids[0]})));
      assert Logged(s, r) == next;
      MergeEachIs(next, ts, start, chosen + {ids[0]}, ids[1..], all);
      AppendIgnoresDatabase(AppendLine(s, r), next.db, MergeRecords(ts, start, ids[1..]));
    }
  }

  lemma PromotionStep(s: Live, op: Op)
    requires op.Promote?
    ensures var plan := PlanPromotion(s, op);
            && PlanOf(s, op) == plan
            && Step(s, op) == if plan.Write? then Commit(s.(lastId := plan.lastId), plan.records)
              else Stepped(s, Unchanged)
  {
    PromotionIsPlanned(s, op);
  }

  lemma RejectionStep(s: Live, op: Op)
    requires op.Reject?
    ensures var plan := PlanRejection(s, op);
            Step(s, op) == if plan.Write? then Commit(s, plan.records) else Stepped(s, Unchanged)
  {
    RejectionIsPlanned(s, op);
    StepOfPlan(s, op);
  }

  lemma StepOfPlan(s: Live, op: Op)
    ensures PlanOf(s, op).Write? && PlanOf(s, op).lastId == s.lastId ==> Step(s, op) == Commit(s, PlanOf(s, op).records)
    ensures !PlanOf(s, op).Write? ==> Step(s, op) == Stepped(s, Unchanged)
  {
    assert s.(lastId := s.lastId) == s;
  }

  lemma CommitApplied(s: Live, records: seq<LogRecord>, db: Database)
    requires ApplyAll(s.db, records) == Outcome(db, Ok(Applied))
    ensures Commit(s, records) == Stepped(AppendAll(s, records).(db := db), Committed)
  {
  }

  lemma MergePlan(s: Live, ts: int)
    ensures var ids := Ascending(Survivors(s.db.core.claims));
            PlanOf(s, MergeDuplicates(ts))
            == if ids == [] then Nothing else Write(s.lastId, MergeRecords(ts, s.db.core.claims, ids))
  {
    SweepIsPlanned(s, MergeDuplicates(ts));
    NoneAscending(Survivors(s.db.core.claims));
  }

  lemma NoneAscending(ids: set<int>)
    ensures Ascending(ids) == [] <==> ids == {}
  {
    assert |Ascending(ids)| == |ids|;
  }

  lemma MergeFinished(before: Live, ts: int)
    requires Ascending(Survivors(before.db.core.claims)) != []
    ensures var done := MergeEach(before, ts, Ascending(Survivors(before.db.core.claims)));
            && Step(before, MergeDuplicates(ts)) == Stepped(done, Committed)
            && done.db == WithClaims(before.db, MergePass(before.db.core.claims))
  {
    var claims := before.db.core.claims;
    var records := MergeRecords(ts, claims, Ascending(Survivors(claims)));
    MergePlan(before, ts);
    StepOfPlan(before, MergeDuplicates(ts));
    MergePlanIsSound(before.db, before.lastId, ts);
    CommitApplied(before, records, WithClaims(before.db, MergePass(claims)));
    MergeAll(before, ts);
  }

  lemma MergeAll(before: Live, ts: int)
    ensures var claims := before.db.core.claims;
            var ids := Ascending(Survivors(claims));
            MergeEach(before, ts, ids) ==
              AppendAll(before, MergeRecords(ts, claims, ids)).(db := WithClaims(before.db, MergePass(claims)))
  {
    var claims := before.db.core.claims;
    NothingMerged(claims);
    MergeEachIs(before, ts, claims, {}, Ascending(Survivors(claims)), Survivors(claims));
  }

  function DecayRecord(ts: int, claims: Claims, targets: set<int>): LogRecord
    requires targets <= claims.Keys
  {
    DecayConfidence(ts, DecayChanges(claims, Ascending(targets)))
  }

  lemma DecayPlan(s: Live, ts: int)
    ensures var targets := DecayTargets(s.db.core.claims, ContradictedIds(s.db.core.contradictions));
            PlanOf(s, DecayContradicted(ts))
            == if targets == {} then Nothing else Write(s.lastId, [DecayRecord(ts, s.db.core.claims, targets)])
  {
    var targets := DecayTargets(s.db.core.claims, ContradictedIds(s.db.core.contradictions));
    assert |Ascending(targets)| == |targets|;
  }

  /** The step decay_contradicted_confidence takes. */
  lemma DecayStep(before: Live, ts: int)
    ensures var claims := before.db.core.claims;
            var targets := DecayTargets(claims, ContradictedIds(before.db.core.contradictions));
            var t := Step(before, DecayContradicted(ts));
            && (targets == {} ==> t == Stepped(before, Unchanged))
            && (targets != {} ==> t == Commit(before, [DecayRecord(ts, claims, targets)]))
            && (ConfidencesWithin(claims) ==>
                t.status != LogAhead && t.live.db == WithClaims(before.db, WithDecay(claims, targets)))
  {
    var claims := before.db.core.claims;
    var targets := DecayTargets(claims, ContradictedIds(before.db.core.contradictions));
    DecayPlan(before, ts);
    StepOfPlan(before, DecayContradicted(ts));
    if targets == {} {
      assert WithDecay(claims, targets) == claims;
    } else if ConfidencesWithin(claims) {
      DecayLineApplies(claims, targets);
      DecayCommits(before, DecayRecord(ts, claims, targets), WithDecay(claims, targets));
    }
  }

  /** The pass lowers exactly the ACTIVE contradicted claims by a step, and counts them. */
  ghost predicate DecaySays(before: Database, after: Database, status: Status, decayed: nat) {
    && decayed == |DecayTargets(before.core.claims, ContradictedIds(before.core.contradictions))|
    && decayed == |ActiveContradicted(before.core.claims, before.core.contradictions)|
    && (ConfidencesWithin(before.core.claims) ==>
          && Lowered(before.core.claims, before.core.contradictions, after.core.claims) && status != LogAhead
          && after == WithClaims(before, DecayPass(before.core.claims, ContradictedIds(before.core.contradictions))))
  }

  lemma DecayStepLowers(s: Live, ts: int)
    ensures DecaySays(s.db, Step(s, DecayContradicted(ts)).live.db, Step(s, DecayContradicted(ts)).status,
                      |DecayTargets(s.db.core.claims, ContradictedIds(s.db.core.contradictions))|)
  {
    DecayStep(s, ts);
    DecayTargetsSay(s.db.core.claims, s.db.core.contradictions);
    if ConfidencesWithin(s.db.core.claims) { DecayPassLowers(s.db.core.claims, s.db.core.contradictions); }
  }

  lemma DecayCommits(before: Live, r: LogRecord, claims: Claims)
    requires r.DecayConfidence? && ApplyDecay(before.db.core.claims, r.changes) == Outcome(claims, Ok(Applied))
    ensures Commit(before, [r]).status == Committed && Commit(before, [r]).live.db == WithClaims(before.db, claims)
  {
    CommitOne(before, r);
    assert ApplyRecord(before.db, r) == Outcome(WithClaims(before.db, claims), Ok(Applied));
  }

  lemma DecayLineApplies(claims: Claims, targets: set<int>)
    requires targets <= claims.Keys && ConfidencesWithin(claims)
    ensures ApplyDecay(claims, DecayChanges(claims, Ascending(targets))) ==
              Outcome(WithDecay(claims, targets), Ok(Applied))
  {
    var ids := Ascending(targets);
    assert forall id :: id in ids <==> id in set id | id in ids;
    DecayRecordDecays(claims, ids, targets);
  }

  lemma {:induction false} AppendInTwoParts(s: Live, a: seq<LogRecord>, b: seq<LogRecord>)
    ensures AppendAll(s, a + b) == AppendAll(AppendAll(s, a), b)
    decreases |a|
  {
    if a == [] {
      assert a + b == b;
    } else {
      assert (a + b)[1..] == a[1..] + b;
      AppendInTwoParts(AppendLine(s, a[0]), a[1..], b);
    }
  }

  /** consolidate_report on a healthy store: the claims reach the consolidated table, nothing
      else in the database changes, and the report counts the drop in ACTIVE claims. */
  method ConsolidateReport(store: Store, ts: int) returns (merged: nat, decayed: nat, superseded: nat)
    requires store.Valid() && ConfidencesWithin(store.conn.claims)
    modifies store, store.conn, store.conn.predicates
    ensures store.Valid()
    ensures var before := old(store.conn.Snapshot());
            var v, contradicted := before.core.vocabulary, ContradictedIds(before.core.contradictions);
            && store.conn.Snapshot() == WithClaims(before, Consolidated(v, contradicted, before.core.claims))
            && merged == |Survivors(before.core.claims)|
            && decayed == |DecayTargets(MergePass(before.core.claims), contradicted)|
            && superseded == |ActiveIds(before.core.claims)| - |ActiveIds(store.conn.claims)|
    ensures var core := old(store.conn.Core());
            && store.conn.claims.Keys == core.claims.Keys
            && (forall id :: id in core.claims ==> Reported(core, id, store.conn.claims[id]))
            && merged == |set id | id in core.claims && FirstToSay(core.claims, id) && SaidAgain(core.claims, id)|
            && decayed == |ActiveContradicted(core.claims, core.contradictions)|
  {
    ghost var before := store.conn.Snapshot();
    ghost var v, contradicted := before.core.vocabulary, ContradictedIds(before.core.contradictions);
    var status;
    status, merged := store.MergeDuplicateSourceRefs(ts);
    MergeKeepsConfidences(before.core.claims);
    status, decayed := store.DecayContradictedConfidence(ts);
    status, superseded := store.SupersedeStaleClaims(ts);
    SupersededCountIsExact(v, contradicted, before.core.claims);
    SurvivorsSay(before.core.claims);
    DecayTargetsSay(before.core.claims, before.core.contradictions);
    AllReported(before.core);
  }

  lemma AllReported(core: ClaimTables)
    requires ConfidencesWithin(core.claims)
    ensures var after := Consolidated(core.vocabulary, ContradictedIds(core.contradictions), core.claims);
            after.Keys == core.claims.Keys && forall id :: id in core.claims ==> Reported(core, id, after[id])
  {
    PassesKeep(core.vocabulary, ContradictedIds(core.contradictions), core.claims);
    forall id | id in core.claims
      ensures Reported(core, id, Consolidated(core.vocabulary, ContradictedIds(core.contradictions), core.claims)[id])
    {
      ConsolidatedIsReported(core, id);
    }
  }

  lemma MergeKeepsConfidences(claims: Claims)
    requires ConfidencesWithin(claims)
    ensures ConfidencesWithin(MergePass(claims))
  {
  }
}
