/** What no record of a live run ever undoes, and why a line met again is a duplicate. */
module Lifecycle {
  import opened Prelude
  import opened Records
  import opened Projection
  import opened Consolidation

  // ----- how rows may change -----

  /** ACTIVE, then SUPERSEDED, then INVALIDATED: a status only moves on. */
  ghost predicate StatusForward(a: ClaimStatus, b: ClaimStatus) {
    a == b || a == Active || b == Invalidated
  }

  ghost predicate ClaimForward(a: ClaimRow, b: ClaimRow) {
    && SameTriple(a, b) && a.agentId == b.agentId && a.agentKind == b.agentKind && a.scope == b.scope
    && StatusForward(a.status, b.status)
    && forall x :: x in a.sourceRefs ==> x in b.sourceRefs
  }

  ghost predicate ClaimsForward(a: Claims, b: Claims) {
    a.Keys <= b.Keys && forall id :: id in a ==> ClaimForward(a[id], b[id])
  }

  /** A chunk may gain its missing embedding, nothing else. */
  ghost predicate ChunkForward(a: ChunkRow, b: ChunkRow) {
    b.(embedding := a.embedding) == a && (a.embedding.Some? ==> a == b)
  }

  ghost predicate CoreForward(a: ClaimTables, b: ClaimTables) {
    && ClaimsForward(a.claims, b.claims)
    && (forall id :: id in a.hyperedges ==> id in b.hyperedges && a.hyperedges[id] == b.hyperedges[id])
    && (forall id :: id in a.contradictions ==> id in b.contradictions && a.contradictions[id] == b.contradictions[id])
    && (forall id :: id in a.chunks ==> id in b.chunks && ChunkForward(a.chunks[id], b.chunks[id]))
  }

  /** A candidate keeps what it proposes; once decided it never changes again. */
  ghost predicate CandidateForward(a: CandidateRow, b: CandidateRow) {
    && (a.status != Pending ==> a == b)
    && b.(status := a.status, promotedClaimId := a.promotedClaimId, rejectionReason := a.rejectionReason) == a
  }

  ghost predicate EpisodicForward(a: EventTables, b: EventTables) {
    && (forall id :: id in a.events ==> id in b.events && a.events[id] == b.events[id])
    && (forall id :: id in a.candidates ==> id in b.candidates && CandidateForward(a.candidates[id], b.candidates[id]))
  }

  ghost predicate NotesForward(a: ObservationTables, b: ObservationTables) {
    && (forall id :: id in a.observations ==> id in b.observations && a.observations[id] == b.observations[id])
    && (forall id :: id in a.markers ==> id in b.markers && a.markers[id] == b.markers[id])
  }

  ghost predicate Forward(a: Database, b: Database) {
    CoreForward(a.core, b.core) && EpisodicForward(a.episodic, b.episodic) && NotesForward(a.notes, b.notes)
  }

  lemma ClaimsForwardCompose(a: Claims, b: Claims, c: Claims)
    requires ClaimsForward(a, b) && ClaimsForward(b, c)
    ensures ClaimsForward(a, c)
  {
    forall id | id in a ensures ClaimForward(a[id], c[id]) {
      assert ClaimForward(a[id], b[id]) && ClaimForward(b[id], c[id]);
    }
  }

  lemma ForwardCompose(a: Database, b: Database, c: Database)
    requires Forward(a, b) && Forward(b, c)
    ensures Forward(a, c)
  {
    ClaimsForwardCompose(a.core.claims, b.core.claims, c.core.claims);
    forall id | id in a.core.chunks ensures ChunkForward(a.core.chunks[id], c.core.chunks[id]) {
      assert ChunkForward(a.core.chunks[id], b.core.chunks[id]) && ChunkForward(b.core.chunks[id], c.core.chunks[id]);
    }
    forall id | id in a.episodic.candidates
      ensures CandidateForward(a.episodic.candidates[id], c.episodic.candidates[id]) {
      assert CandidateForward(a.episodic.candidates[id], b.episodic.candidates[id]);
      assert CandidateForward(b.episodic.candidates[id], c.episodic.candidates[id]);
    }
  }

  /** What live writers see to: only ACTIVE claims are superseded, a merge keeps the references its
      claim already has, and a decay raises no confidence. */
  ghost predicate Careful(claims: Claims, r: LogRecord) {
    && (r.SupersedeClaims? ==> forall k :: 0 <= k < |r.claimIds| ==>
          r.claimIds[k] in claims && claims[r.claimIds[k]].status == Active)
    && (r.MergeSourceRefs? && r.claimId in claims ==>
          forall x :: x in claims[r.claimId].sourceRefs ==> x in r.sourceRefs)
    && (r.DecayConfidence? ==> LowersOnly(claims, r.changes))
  }

  ghost predicate LowersOnly(claims: Claims, changes: seq<ConfidenceChange>) {
    forall k :: 0 <= k < |changes| && changes[k].claimId in claims ==>
      changes[k].confidence <= claims[changes[k].claimId].confidence
  }

  /** A careful decay line leaves every confidence at most where it was. */
  lemma {:induction false} DecayOnlyLowers(start: Claims, claims: Claims, changes: seq<ConfidenceChange>)
    requires LowersOnly(start, changes) && claims.Keys == start.Keys
    requires forall id :: id in claims ==> claims[id].confidence <= start[id].confidence
    ensures ApplyDecay(claims, changes).state.Keys == start.Keys
    ensures forall id :: id in start ==> ApplyDecay(claims, changes).state[id].confidence <= start[id].confidence
    decreases |changes|
  {
    if changes != [] && changes[0].claimId in claims && Within(changes[0].confidence) {
      assert forall k :: 0 < k < |changes| ==> changes[k] == changes[1..][k - 1];
      DecayOnlyLowers(start,
        claims[changes[0].claimId := claims[changes[0].claimId].(confidence := changes[0].confidence)], changes[1..]);
    }
  }

  lemma {:induction false} DecayMovesForward(claims: Claims, changes: seq<ConfidenceChange>)
    ensures ClaimsForward(claims, ApplyDecay(claims, changes).state)
    decreases |changes|
  {
    if changes != [] && changes[0].claimId in claims && Within(changes[0].confidence) {
      var next := claims[changes[0].claimId := claims[changes[0].claimId].(confidence := changes[0].confidence)];
      DecayMovesForward(next, changes[1..]);
      ClaimsForwardCompose(claims, next, ApplyDecay(next, changes[1..]).state);
    }
  }

  lemma SupersedeMovesForward(claims: Claims, r: LogRecord)
    requires r.SupersedeClaims? && Careful(claims, r)
    ensures ClaimsForward(claims, ApplySupersede(claims, r.claimIds).state)
  {
    SupersedeIsPointwise(claims, r.claimIds);
    forall id | id in claims && id in r.claimIds ensures claims[id].status == Active {
      var k :| 0 <= k < |r.claimIds| && r.claimIds[k] == id;
    }
  }

  lemma ClaimRowMovesForward(claims: Claims, r: LogRecord)
    requires r.RetireClaim? || r.MergeSourceRefs?
    requires Careful(claims, r)
    ensures r.RetireClaim? ==> ClaimsForward(claims, ApplyRetire(claims, r).state)
    ensures r.MergeSourceRefs? ==> ClaimsForward(claims, ApplyMerge(claims, r).state)
  {
  }

  lemma OnlyClaimsForward(core: ClaimTables, claims: Claims)
    requires ClaimsForward(core.claims, claims)
    ensures CoreForward(core, core.(claims := claims))
  {
  }

  lemma NewRowMovesForward(claims: Claims, id: int, row: ClaimRow)
    requires id !in claims
    ensures ClaimsForward(claims, claims[id := row])
  {
  }

  lemma AddClaimMovesForward(core: ClaimTables, r: LogRecord)
    requires r.AddClaim? && ApplyAddClaim(core, r).result.Ok?
    ensures CoreForward(core, ApplyAddClaim(core, r).state)
  {
    var kind := ParseAgentKind(r.agentKind).value;
    if r.claimId !in core.claims {
      var o := InsertClaim(core, r, kind, StatedProvenance(r, kind).value);
      NewRowMovesForward(core.claims, r.claimId, NewClaim(r, kind, StatedProvenance(r, kind).value));
      assert o.state.hyperedges == core.hyperedges && o.state.contradictions == core.contradictions
          && o.state.chunks == core.chunks;
    }
  }

  lemma AddHyperedgeMovesForward(core: ClaimTables, r: LogRecord)
    requires r.AddHyperedge? && ApplyAddHyperedge(core, r).result.Ok?
    ensures CoreForward(core, ApplyAddHyperedge(core, r).state)
  {
    if r.hyperedgeId !in core.hyperedges {
      InsertedMovesForward(core, r, ParseProvenance(r.provenanceName).value);
    }
  }

  lemma InsertedMovesForward(core: ClaimTables, r: LogRecord, provenance: Provenance)
    requires r.AddHyperedge? && r.hyperedgeId !in core.hyperedges && InsertHyperedge(core, r, provenance).result.Ok?
    ensures CoreForward(core, InsertHyperedge(core, r, provenance).state)
  {
    var o := InsertHyperedge(core, r, provenance);
    assert o.state.claims == core.claims && o.state.contradictions == core.contradictions
        && o.state.chunks == core.chunks;
  }

  lemma ChunkRecordMovesForward(core: ClaimTables, r: LogRecord)
    requires r.AddContradiction? || r.AddVectorChunk? || r.EmbedVectorChunk?
    ensures CoreForward(core, ApplyCore(core, r).state)
  {
    if r.AddContradiction? {
      ContradictionMovesForward(core, r);
    } else if r.AddVectorChunk? {
      ChunkMovesForward(core, r);
    } else {
      EmbeddingMovesForward(core, r);
    }
  }

  lemma ContradictionMovesForward(core: ClaimTables, r: LogRecord)
    requires r.AddContradiction?
    ensures CoreForward(core, ApplyContradiction(core, r).state)
  {
  }

  lemma ChunkMovesForward(core: ClaimTables, r: LogRecord)
    requires r.AddVectorChunk?
    ensures CoreForward(core, ApplyAddChunk(core, r).state)
  {
  }

  lemma EmbeddingMovesForward(core: ClaimTables, r: LogRecord)
    requires r.EmbedVectorChunk?
    ensures CoreForward(core, ApplyEmbedChunk(core, r).state)
  {
  }

  lemma ClaimLogMovesForward(core: ClaimTables, r: LogRecord)
    requires SeriesOf(r) == ClaimLog && ApplyCore(core, r).result.Ok? && Careful(core.claims, r)
    ensures CoreForward(core, ApplyCore(core, r).state)
  {
    match r
    case AddClaim(_, _, _, _, _, _, _, _, _, _, _) => AddClaimMovesForward(core, r);
    case AddHyperedge(_, _, _, _, _, _, _) => AddHyperedgeMovesForward(core, r);
    case SupersedeClaims(_, ids) =>
      SupersedeMovesForward(core.claims, r);
      OnlyClaimsForward(core, ApplySupersede(core.claims, ids).state);
    case DecayConfidence(_, changes) =>
      DecayMovesForward(core.claims, changes);
      OnlyClaimsForward(core, ApplyDecay(core.claims, changes).state);
    case RetireClaim(_, _, _) =>
      ClaimRowMovesForward(core.claims, r);
      OnlyClaimsForward(core, ApplyRetire(core.claims, r).state);
    case MergeSourceRefs(_, _, _, _) =>
      ClaimRowMovesForward(core.claims, r);
      OnlyClaimsForward(core, ApplyMerge(core.claims, r).state);
    case _ => ChunkRecordMovesForward(core, r);
  }

  /** No record of a live run takes anything back. */
  lemma RecordMovesForward(db: Database, r: LogRecord)
    requires ApplyRecord(db, r).result.Ok? && Careful(db.core.claims, r)
    ensures Forward(db, ApplyRecord(db, r).state)
  {
    match SeriesOf(r)
    case ClaimLog => ClaimLogMovesForward(db.core, r);
    case EventLog => EventLogMovesForward(db.episodic, db.core.claims.Keys, r);
    case ObservationLog => ObservationLogMovesForward(db.notes, r);
  }

  lemma EventLogMovesForward(t: EventTables, claimIds: set<int>, r: LogRecord)
    requires SeriesOf(r) == EventLog
    ensures EpisodicForward(t, ApplyEpisodic(t, claimIds, r).state)
  {
  }

  lemma ObservationLogMovesForward(t: ObservationTables, r: LogRecord)
    requires SeriesOf(r) == ObservationLog
    ensures NotesForward(t, ApplyNotes(t, r).state)
  {
  }

  // ----- duplicates -----

  /** Kinds whose line, met again, must be recognised. */
  predicate Recognised(r: LogRecord) {
    !r.SupersedeClaims? && !r.DecayConfidence? && !r.MergeSourceRefs?
  }

  /** The record's effect is in the tables, and later changes keep it there. */
  ghost predicate Absorbs(db: Database, r: LogRecord) {
    ApplyRecord(db, r) == Outcome(db, Ok(Duplicate))
  }

  /** Replay has got somewhere, and there the line changes nothing. */
  ghost predicate AbsorbsWhere(reached: Option<Database>, r: LogRecord) {
    reached.Some? && Absorbs(reached.value, r)
  }

  lemma AppliedIsAbsorbed(db: Database, r: LogRecord)
    requires Recognised(r) && ApplyRecord(db, r).result.Ok?
    ensures Absorbs(ApplyRecord(db, r).state, r)
  {
    match SeriesOf(r)
    case ClaimLog => AppliedCoreIsAbsorbed(db.core, r);
    case EventLog =>
    case ObservationLog =>
  }

  lemma AppliedCoreIsAbsorbed(core: ClaimTables, r: LogRecord)
    requires SeriesOf(r) == ClaimLog && Recognised(r) && ApplyCore(core, r).result.Ok?
    ensures ApplyCore(ApplyCore(core, r).state, r) == Outcome(ApplyCore(core, r).state, Ok(Duplicate))
  {
    if r.AddClaim? {
      var kind := ParseAgentKind(r.agentKind).value;
      assert SameClaim(ApplyCore(core, r).state.claims[r.claimId], r, kind);
    } else if r.AddHyperedge? {
      assert SameHyperedge(ApplyCore(core, r).state.hyperedges[r.hyperedgeId], r);
    } else if r.RetireClaim? {
      var row := ApplyCore(core, r).state.claims[r.claimId];
      assert row.status == Invalidated && Marker(r.reason) in row.sourceRefs;
    }
  }

  /** A later embedding is the one change a chunk line does not survive. */
  ghost predicate SameEmbedding(a: ClaimTables, b: ClaimTables, r: LogRecord) {
    r.AddVectorChunk? && r.chunkId in a.chunks && r.chunkId in b.chunks ==>
      a.chunks[r.chunkId].embedding == b.chunks[r.chunkId].embedding
  }

  lemma AbsorptionLasts(a: Database, b: Database, r: LogRecord)
    requires Recognised(r) && Absorbs(a, r) && Forward(a, b) && SameEmbedding(a.core, b.core, r)
    ensures Absorbs(b, r)
  {
    match SeriesOf(r)
    case ClaimLog => CoreAbsorptionLasts(a.core, b.core, r);
    case EventLog =>
      if r.PromoteCandidate? || r.RejectCandidate? || r.ProposeCandidate? {
        assert CandidateForward(a.episodic.candidates[r.candidateId], b.episodic.candidates[r.candidateId]);
      }
    case ObservationLog =>
  }

  lemma CoreAbsorptionLasts(a: ClaimTables, b: ClaimTables, r: LogRecord)
    requires SeriesOf(r) == ClaimLog && Recognised(r) && CoreForward(a, b) && SameEmbedding(a, b, r)
    requires ApplyCore(a, r) == Outcome(a, Ok(Duplicate))
    ensures ApplyCore(b, r) == Outcome(b, Ok(Duplicate))
  {
    if r.AddClaim? || r.RetireClaim? {
      assert r.claimId in a.claims && ClaimForward(a.claims[r.claimId], b.claims[r.claimId]);
    } else if r.AddVectorChunk? || r.EmbedVectorChunk? {
      assert r.chunkId in a.chunks && ChunkForward(a.chunks[r.chunkId], b.chunks[r.chunkId]);
    }
  }

  // ----- applying a record twice in a row -----

  /** The last value a decay record gives a claim. */
  function LastChange(changes: seq<ConfidenceChange>, id: int): Option<real>
    decreases |changes|
  {
    if changes == [] then None
    else match LastChange(changes[1..], id)
      case Some(c) => Some(c)
      case None => if changes[0].claimId == id then Some(changes[0].confidence) else None
  }

  function WithLastChanges(claims: Claims, changes: seq<ConfidenceChange>): Claims {
    map id | id in claims :: match LastChange(changes, id)
      case Some(c) => claims[id].(confidence := c)
      case None => claims[id]
  }

  lemma {:induction false} DecaySetsLastChanges(claims: Claims, changes: seq<ConfidenceChange>)
    requires ApplyDecay(claims, changes).result.Ok?
    ensures ApplyDecay(claims, changes).state == WithLastChanges(claims, changes)
    decreases |changes|
  {
    if changes != [] {
      var next := claims[changes[0].claimId := claims[changes[0].claimId].(confidence := changes[0].confidence)];
      DecaySetsLastChanges(next, changes[1..]);
      assert WithLastChanges(next, changes[1..]) == WithLastChanges(claims, changes);
    } else {
      assert WithLastChanges(claims, changes) == claims;
    }
  }

  lemma {:induction false} DecayDependsOnKeys(a: Claims, b: Claims, changes: seq<ConfidenceChange>)
    requires a.Keys == b.Keys
    ensures ApplyDecay(a, changes).result == ApplyDecay(b, changes).result
    decreases |changes|
  {
    if changes != [] && changes[0].claimId in a && Within(changes[0].confidence) {
      DecayDependsOnKeys(a[changes[0].claimId := a[changes[0].claimId].(confidence := changes[0].confidence)],
                         b[changes[0].claimId := b[changes[0].claimId].(confidence := changes[0].confidence)],
                         changes[1..]);
    }
  }

  lemma {:induction false} SupersedeNeedsItsIds(claims: Claims, ids: seq<int>)
    requires ApplySupersede(claims, ids).result.Ok?
    ensures AllIn(ids, claims)
    decreases |ids|
  {
    if ids != [] {
      var next := if claims[ids[0]].status == Superseded then claims
                  else claims[ids[0] := claims[ids[0]].(status := Superseded)];
      SupersedeNeedsItsIds(next, ids[1..]);
      forall k | 0 < k < |ids| ensures ids[k] in claims { assert ids[1..][k - 1] in next; }
    }
  }

  /** Any record that applies, applied again at once, succeeds and changes nothing. */
  lemma TwiceIsOnce(db: Database, r: LogRecord)
    requires ApplyRecord(db, r).result.Ok?
    ensures ApplyRecord(ApplyRecord(db, r).state, r).result.Ok?
    ensures ApplyRecord(ApplyRecord(db, r).state, r).state == ApplyRecord(db, r).state
  {
    if Recognised(r) {
      AppliedIsAbsorbed(db, r);
    } else if r.SupersedeClaims? {
      var once := ApplySupersede(db.core.claims, r.claimIds).state;
      SupersedeNeedsItsIds(db.core.claims, r.claimIds);
      SupersedeIsPointwise(db.core.claims, r.claimIds);
      SupersedeIsPointwise(once, r.claimIds);
      assert WithSuperseded(once, set id | id in r.claimIds) == once;
    } else if r.DecayConfidence? {
      var once := ApplyDecay(db.core.claims, r.changes).state;
      DecaySetsLastChanges(db.core.claims, r.changes);
      DecayDependsOnKeys(db.core.claims, once, r.changes);
      DecaySetsLastChanges(once, r.changes);
      assert WithLastChanges(once, r.changes) == once;
    } else {
      var once := ApplyMerge(db.core.claims, r).state;
      assert ApplyMerge(once, r).state == once;
    }
  }
}
