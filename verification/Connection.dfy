/** The one projection writer (crates/aver-core/src/apply.rs) over mutable tables:
    every method reads and rewrites rows in place and is proved to do what the
    specification in Projection says, on success and on failure alike. */
module Connection {
  import opened Prelude
  import opened Records
  import opened Ontology
  import opened PredicateFilter
  import opened Projection

  class Connection {
    const predicates: TypeTable
    var aliases: map<string, nat>
    var extensions: seq<Extension>
    var entityTypes: seq<TypeRow>
    var entities: map<string, EntityRow>
    var claims: map<int, ClaimRow>
    var hyperedges: map<int, HyperedgeRow>
    var contradictions: map<int, ContradictionRow>
    var chunks: map<int, ChunkRow>
    var vectorIndex: map<int, seq<real>>
    var events: map<int, EventRow>
    var candidates: map<int, CandidateRow>
    var observations: map<string, ObservationRow>
    var markers: map<string, MarkerRow>

    /** The closure table is current, so rebuilding it terminates. */
    ghost predicate Valid()
      reads this, predicates
    {
      predicates.Valid()
    }

    function Core(): ClaimTables
      reads this, predicates
    {
      ClaimTables(Vocabulary(predicates.rows, aliases, predicates.closure), extensions, entityTypes,
                  entities, claims, hyperedges, contradictions, chunks, vectorIndex)
    }

    function Snapshot(): Database
      reads this, predicates
    {
      Database(Core(), EventTables(events, candidates), ObservationTables(observations, markers))
    }

    /** A database with its type tables and no other rows. */
    constructor (predicates: TypeTable, aliases: map<string, nat>, entityTypes: seq<TypeRow>)
      requires predicates.Valid()
      ensures this.predicates == predicates && Valid()
      ensures Snapshot() == EmptyDatabase(predicates.rows, aliases, entityTypes)
    {
      this.predicates, this.aliases, this.entityTypes := predicates, aliases, entityTypes;
      extensions, entities, claims, hyperedges := [], map[], map[], map[];
      contradictions, chunks, vectorIndex := map[], map[], map[];
      events, candidates, observations, markers := map[], map[], map[], map[];
    }

    /** ROLLBACK: every table returns to a savepoint. */
    method Restore(savepoint: Database)
      requires savepoint.core.vocabulary.closure == Closure(savepoint.core.vocabulary.rows)
      requires Acyclic(savepoint.core.vocabulary.rows) && UniqueNames(savepoint.core.vocabulary.rows)
      modifies this, predicates
      ensures Snapshot() == savepoint && Valid()
    {
      var core := savepoint.core;
      predicates.rows, predicates.closure := core.vocabulary.rows, core.vocabulary.closure;
      aliases, extensions, entityTypes := core.vocabulary.aliases, core.extensions, core.entityTypes;
      entities, claims, hyperedges := core.entities, core.claims, core.hyperedges;
      contradictions, chunks, vectorIndex := core.contradictions, core.chunks, core.vectorIndex;
      events, candidates := savepoint.episodic.events, savepoint.episodic.candidates;
      observations, markers := savepoint.notes.observations, savepoint.notes.markers;
    }

    method EnsurePredicate(predicate_: string, provenance: Provenance, agentId: string, ts: int)
      returns (error: Option<Error>)
      requires Valid()
      modifies this`extensions, predicates
      ensures Valid()
      ensures var o := EnsurePredicateKnown(old(Core()), predicate_, provenance, agentId, ts);
              Core() == o.state && error == if o.result.Err? then Some(o.result.error) else None
    {
      if IdOf(predicates.rows, predicate_).Some? || predicate_ in aliases { return None; }
      var root := IdOf(predicates.rows, "relates_to");
      if root.None? { return Some(Sqlite); }
      var row := ExtensionRow(predicate_, provenance, root.value, ts);
      LeafKeepsAcyclic(predicates.rows, row);
      predicates.rows := predicates.rows + [row];
      predicates.RebuildClosure();
      if ts <= 0 { return Some(Sqlite); }
      extensions := extensions + [Extension(predicate_, agentId, ts)];
      return None;
    }

    method EnsureEntityRow(entity: string, now: int) returns (error: Option<Error>)
      modifies this`entities
      ensures match EnsureEntity(entityTypes, old(entities), entity, now)
              case Ok(rows) => error == None && entities == rows
              case Err(e) => error == Some(e) && entities == old(entities)
    {
      var inferred := IdOf(entityTypes, InferEntityType(entityTypes, entity));
      var thing := IdOf(entityTypes, "Thing");
      if thing.None? { return Some(MissingEntityType); }
      var typeId := if inferred.Some? then inferred.value else thing.value;
      if SeenTooEarly(if entity in entities then entities[entity].createdAt else now, now) { return Some(Sqlite); }
      if entity !in entities {
        entities := entities[entity := EntityRow(typeId, typeId == thing.value, now, now)];
      } else if entities[entity].typeId == thing.value && typeId != thing.value {
        entities := entities[entity := entities[entity].(typeId := typeId, requiresReview := false, lastSeenAt := now)];
      } else {
        entities := entities[entity := entities[entity].(lastSeenAt := now)];
      }
      return None;
    }

    method AddClaimRow(r: LogRecord) returns (result: Result<Applied, Error>)
      requires Valid() && r.AddClaim?
      modifies this`extensions, this`entities, this`claims, predicates
      ensures Valid() && Outcome(Core(), result) == ApplyAddClaim(old(Core()), r)
    {
      var kind := ParseAgentKind(r.agentKind);
      if kind.None? { return Err(EnumParse); }
      var provenance := kind.value.DefaultProvenance();
      if r.provenance.Some? {
        var parsed := ParseProvenance(r.provenance.value);
        if parsed.None? { return Err(InvalidRecord); }
        provenance := parsed.value;
      }
      if r.claimId in claims {
        return if SameClaim(claims[r.claimId], r, kind.value) then Ok(Duplicate) else Err(DuplicateId);
      }
      result := InsertClaimRow(r, kind.value, provenance);
    }

    method InsertClaimRow(r: LogRecord, kind: AgentKind, provenance: Provenance)
      returns (result: Result<Applied, Error>)
      requires Valid() && r.AddClaim? && r.claimId !in claims
      modifies this`extensions, this`entities, this`claims, predicates
      ensures Valid() && Outcome(Core(), result) == InsertClaim(old(Core()), r, kind, provenance)
    {
      var error := EnsurePredicate(r.predicate_, provenance, r.agentId, r.ts);
      if error.Some? { return Err(error.value); }
      error := TouchEnds(r.subject, r.object_, r.ts);
      if error.Some? { return Err(error.value); }
      if !Within(r.confidence) { return Err(Sqlite); }
      claims := claims[r.claimId := NewClaim(r, kind, provenance)];
      return Ok(Applied);
    }

    method TouchEnds(subject: string, object_: string, ts: int) returns (error: Option<Error>)
      requires Valid()
      modifies this`entities
      ensures Valid()
      ensures var o := TouchBoth(old(Core()), subject, object_, ts);
              Core() == o.state && error == if o.result.Err? then Some(o.result.error) else None
    {
      error := EnsureEntityRow(subject, ts);
      if error.Some? { return; }
      error := EnsureEntityRow(object_, ts);
    }

    method AddHyperedgeRows(r: LogRecord) returns (result: Result<Applied, Error>)
      requires Valid() && r.AddHyperedge?
      modifies this`extensions, this`entities, this`hyperedges, predicates
      ensures Valid() && Outcome(Core(), result) == ApplyAddHyperedge(old(Core()), r)
    {
      var provenance := ParseProvenance(r.provenanceName);
      if provenance.None? { return Err(EnumParse); }
      if r.hyperedgeId in hyperedges {
        return if SameHyperedge(hyperedges[r.hyperedgeId], r) then Ok(Duplicate) else Err(DuplicateId);
      }
      var error := EnsurePredicate(r.predicate_, provenance.value, "local", r.ts);
      if error.Some? { return Err(error.value); }
      if !Within(r.confidence) || !NoRepeats(r.sourceRefs) || r.ts <= 0 { return Err(Sqlite); }
      hyperedges := hyperedges[r.hyperedgeId :=
        HyperedgeRow(r.predicate_, provenance.value, r.confidence, r.sourceRefs, r.ts, [])];
      ghost var start := Core();
      for i := 0 to |r.participants|
        invariant Valid() && r.hyperedgeId in hyperedges
        invariant AddParticipants(Core(), r.hyperedgeId, r.participants[i..], r.ts)
               == AddParticipants(start, r.hyperedgeId, r.participants, r.ts)
      {
        var participant := r.participants[i];
        assert r.participants[i..][1..] == r.participants[i + 1..];
        error := EnsureEntityRow(participant.entity, r.ts);
        if error.Some? { return Err(error.value); }
        var edge := hyperedges[r.hyperedgeId];
        if participant in edge.participants { return Err(Sqlite); }
        hyperedges := hyperedges[r.hyperedgeId := edge.(participants := edge.participants + [participant])];
      }
      return Ok(Applied);
    }

    method RetireClaimRow(r: LogRecord) returns (result: Result<Applied, Error>)
      requires r.RetireClaim?
      modifies this`claims
      ensures Outcome(claims, result) == ApplyRetire(old(claims), r)
    {
      if r.claimId !in claims { return Err(InvalidRecord); }
      var row := claims[r.claimId];
      if row.status == Invalidated {
        return if Marker(r.reason) in row.sourceRefs then Ok(Duplicate) else Err(DuplicateId);
      }
      var refs := row.sourceRefs + [Marker(r.reason)];
      if !NoRepeats(refs) || SeenTooEarly(row.writeTs, r.ts) { return Err(Sqlite); }
      claims := claims[r.claimId := row.(status := Invalidated, sourceRefs := refs, lastSeenAt := r.ts)];
      return Ok(Applied);
    }

    method SupersedeRows(ids: seq<int>) returns (result: Result<Applied, Error>)
      modifies this`claims
      ensures Outcome(claims, result) == ApplySupersede(old(claims), ids)
    {
      for i := 0 to |ids|
        invariant ApplySupersede(claims, ids[i..]) == ApplySupersede(old(claims), ids)
      {
        assert ids[i..][1..] == ids[i + 1..];
        if ids[i] !in claims { return Err(InvalidRecord); }
        if claims[ids[i]].status == Superseded { continue; }
        claims := claims[ids[i] := claims[ids[i]].(status := Superseded)];
      }
      return Ok(Applied);
    }

    method DecayRows(changes: seq<ConfidenceChange>) returns (result: Result<Applied, Error>)
      modifies this`claims
      ensures Outcome(claims, result) == ApplyDecay(old(claims), changes)
    {
      for i := 0 to |changes|
        invariant ApplyDecay(claims, changes[i..]) == ApplyDecay(old(claims), changes)
      {
        assert changes[i..][1..] == changes[i + 1..];
        var change := changes[i];
        if change.claimId !in claims { return Err(InvalidRecord); }
        if !Within(change.confidence) { return Err(Sqlite); }
        claims := claims[change.claimId := claims[change.claimId].(confidence := change.confidence)];
      }
      return Ok(Applied);
    }

    method MergeRow(r: LogRecord) returns (result: Result<Applied, Error>)
      requires r.MergeSourceRefs?
      modifies this`claims
      ensures Outcome(claims, result) == ApplyMerge(old(claims), r)
    {
      if r.claimId !in claims { return Err(InvalidRecord); }
      if !NoRepeats(r.sourceRefs) { return Err(Sqlite); }
      var row := claims[r.claimId];
      if r.promote {
        claims := claims[r.claimId := row.(sourceRefs := r.sourceRefs, provenance := Extracted,
                                           confidence := Max(row.confidence, 0.75))];
      } else {
        claims := claims[r.claimId := row.(sourceRefs := r.sourceRefs)];
      }
      return Ok(Applied);
    }

    method IndexEmbedding(chunkId: int, embedding: seq<real>)
      modifies this`vectorIndex
      ensures vectorIndex == Index(old(vectorIndex), chunkId, embedding)
    {
      if |embedding| == VECTOR_INDEX_DIM && chunkId !in vectorIndex {
        vectorIndex := vectorIndex[chunkId := embedding];
      }
    }

    method AddChunkRow(r: LogRecord) returns (result: Result<Applied, Error>)
      requires r.AddVectorChunk?
      modifies this`chunks, this`vectorIndex
      ensures Outcome(Core(), result) == ApplyAddChunk(old(Core()), r)
    {
      if r.chunkId in chunks {
        var row := chunks[r.chunkId];
        return if row.claimId == r.claimId && row.text == r.text && row.embeddingModel == r.embeddingModel
                  && row.embedding == r.embedding
               then Ok(Duplicate) else Err(DuplicateId);
      }
      if r.claimId !in claims || r.embedding == Some([]) || r.ts <= 0 { return Err(Sqlite); }
      chunks := chunks[r.chunkId := ChunkRow(r.claimId, r.text, r.embeddingModel, r.embedding, r.ts)];
      if r.embedding.Some? { IndexEmbedding(r.chunkId, r.embedding.value); }
      return Ok(Applied);
    }

    method EmbedChunkRow(r: LogRecord) returns (result: Result<Applied, Error>)
      requires r.EmbedVectorChunk?
      modifies this`chunks, this`vectorIndex
      ensures Outcome(Core(), result) == ApplyEmbedChunk(old(Core()), r)
    {
      if r.chunkId !in chunks { return Err(InvalidRecord); }
      match chunks[r.chunkId].embedding {
        case Some(current) =>
          return if current == r.newEmbedding then Ok(Duplicate) else Err(DuplicateId);
        case None =>
          if r.newEmbedding == [] { return Err(Sqlite); }
          chunks := chunks[r.chunkId := chunks[r.chunkId].(embedding := Some(r.newEmbedding))];
          IndexEmbedding(r.chunkId, r.newEmbedding);
          return Ok(Applied);
      }
    }

    method AddContradictionRow(r: LogRecord) returns (result: Result<Applied, Error>)
      requires r.AddContradiction?
      modifies this`contradictions
      ensures Outcome(Core(), result) == ApplyContradiction(old(Core()), r)
    {
      if r.contradictionId in contradictions {
        var row := contradictions[r.contradictionId];
        return if row.claimId == r.claimId && row.reason == r.reason && row.newClaimId == r.newClaimId
               then Ok(Duplicate) else Err(DuplicateId);
      }
      if r.claimId !in claims || (r.newClaimId.Some? && r.newClaimId.value !in claims)
         || r.newClaimId == Some(r.claimId) || r.ts <= 0 {
        return Err(Sqlite);
      }
      contradictions := contradictions[r.contradictionId := ContradictionRow(r.claimId, r.reason, r.newClaimId, r.ts)];
      return Ok(Applied);
    }

    method ApplyClaimLogRecord(r: LogRecord) returns (result: Result<Applied, Error>)
      requires Valid() && SeriesOf(r) == ClaimLog
      modifies this`extensions, this`entities, this`claims, this`hyperedges, this`contradictions,
               this`chunks, this`vectorIndex, predicates
      ensures Valid() && Outcome(Core(), result) == ApplyCore(old(Core()), r)
    {
      match r {
        case AddClaim(_, _, _, _, _, _, _, _, _, _, _) => result := AddClaimRow(r);
        case AddHyperedge(_, _, _, _, _, _, _) => result := AddHyperedgeRows(r);
        case RetireClaim(_, _, _) => result := RetireClaimRow(r);
        case AddContradiction(_, _, _, _, _) => result := AddContradictionRow(r);
        case SupersedeClaims(_, ids) => result := SupersedeRows(ids);
        case DecayConfidence(_, changes) => result := DecayRows(changes);
        case MergeSourceRefs(_, _, _, _) => result := MergeRow(r);
        case AddVectorChunk(_, _, _, _, _, _) => result := AddChunkRow(r);
        case EmbedVectorChunk(_, _, _) => result := EmbedChunkRow(r);
      }
    }

    method ApplyEventLogRecord(r: LogRecord) returns (result: Result<Applied, Error>)
      requires SeriesOf(r) == EventLog
      modifies this`events, this`candidates
      ensures Outcome(EventTables(events, candidates), result)
           == ApplyEpisodic(EventTables(old(events), old(candidates)), claims.Keys, r)
    {
      match r {
        case RecordEvent(_, _, _, _, _, _, _, _, _) =>
          if r.eventId in events {
            var row := events[r.eventId];
            return if row.sessionId == r.sessionId && row.kind == r.eventKind && row.payload == r.payload
                      && row.source == r.source && row.agentId == r.agentId && row.agentKind.Name() == r.agentKind
                   then Ok(Duplicate) else Err(DuplicateId);
          }
          var kind := ParseAgentKind(r.agentKind);
          if kind.None? || r.ts <= 0 { return Err(Sqlite); }
          events := events[r.eventId := EventRow(r.sessionId, r.eventKind, r.payload, r.source, r.agentId,
                                                 kind.value, r.ts, r.scope)];
        case ProposeCandidate(_, _, _, _, _, _, _) =>
          if r.candidateId in candidates {
            var row := candidates[r.candidateId];
            return if row.eventId == r.eventId && row.subject == r.subject && row.predicate_ == r.predicate_
                      && row.object_ == r.object_ && row.scope == r.scope
                   then Ok(Duplicate) else Err(DuplicateId);
          }
          if r.eventId !in events || r.ts <= 0 { return Err(Sqlite); }
          candidates := candidates[r.candidateId := CandidateRow(
            r.eventId, r.subject, r.predicate_, r.object_, Pending, None, None, r.ts, r.scope)];
        case PromoteCandidate(_, _, _, _) =>
          if !DecisionFits(r.decision, "promote") || r.candidateId !in candidates { return Err(InvalidRecord); }
          var row := candidates[r.candidateId];
          if row.status == Promoted {
            return if row.promotedClaimId == Some(r.claimId) then Ok(Duplicate) else Err(DuplicateId);
          }
          if row.status != Pending || r.claimId !in claims { return Err(InvalidRecord); }
          candidates := candidates[r.candidateId := row.(status := Promoted, promotedClaimId := Some(r.claimId))];
        case RejectCandidate(_, _, _, _) =>
          if !DecisionFits(r.decision, "reject") || r.candidateId !in candidates { return Err(InvalidRecord); }
          var row := candidates[r.candidateId];
          if row.status == Rejected {
            return if row.rejectionReason == Some(r.reason) then Ok(Duplicate) else Err(DuplicateId);
          }
          if row.status != Pending { return Err(InvalidRecord); }
          candidates := candidates[r.candidateId := row.(status := Rejected, rejectionReason := Some(r.reason))];
      }
      return Ok(Applied);
    }

    method ApplyObservationLogRecord(r: LogRecord) returns (result: Result<Applied, Error>)
      requires SeriesOf(r) == ObservationLog
      modifies this`observations, this`markers
      ensures Outcome(ObservationTables(observations, markers), result)
           == ApplyNotes(ObservationTables(old(observations), old(markers)), r)
    {
      if r.RecordObservation? {
        if r.observationId in observations {
          var row := observations[r.observationId];
          return if row.sessionId == r.sessionId && row.content == r.content && row.relevance == r.relevance
                    && row.sourceEventIds == r.sourceEventIds && row.agentId == r.agentId
                    && row.agentKind == r.agentKind && row.derivation == r.derivation
                 then Ok(Duplicate) else Err(DuplicateId);
        }
        if !KnownRelevance(r.relevance) || ParseAgentKind(r.agentKind).None? || !NoRepeats(r.sourceEventIds)
           || r.ts <= 0 {
          return Err(Sqlite);
        }
        observations := observations[r.observationId := ObservationRow(
          r.sessionId, r.content, r.relevance, r.sourceEventIds, r.agentId, r.agentKind, r.derivation, r.ts, r.scope)];
      } else {
        if r.markerId in markers {
          var row := markers[r.markerId];
          return if row.sessionId == r.sessionId && row.prunedIds == r.prunedIds && row.ts == r.ts
                 then Ok(Duplicate) else Err(DuplicateId);
        }
        if !NoRepeats(r.prunedIds) || r.ts <= 0 { return Err(Sqlite); }
        markers := markers[r.markerId := MarkerRow(r.sessionId, r.prunedIds, r.ts)];
      }
      return Ok(Applied);
    }

    /** apply. */
    method Apply(r: LogRecord) returns (result: Result<Applied, Error>)
      requires Valid()
      modifies this, predicates
      ensures Valid() && Outcome(Snapshot(), result) == ApplyRecord(old(Snapshot()), r)
    {
      match SeriesOf(r) {
        case ClaimLog => result := ApplyClaimLogRecord(r);
        case EventLog => result := ApplyEventLogRecord(r);
        case ObservationLog => result := ApplyObservationLogRecord(r);
      }
    }
  }

  ghost function EmptyDatabase(rows: seq<TypeRow>, aliases: map<string, nat>, entityTypes: seq<TypeRow>): Database {
    Database(
      ClaimTables(Vocabulary(rows, aliases, Closure(rows)), [], entityTypes, map[], map[], map[], map[], map[], map[]),
      EventTables(map[], map[]), ObservationTables(map[], map[]))
  }
}
