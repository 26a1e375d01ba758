/** What one log record does to the projected tables: the specification of
    crates/aver-core/src/apply.rs. An outcome carries the tables as they stand when
    the call returns, so a failing record shows the rows it had already written. */
module Projection {
  import opened Prelude
  import opened Records
  import opened Ontology
  import opened PredicateFilter

  datatype ClaimRow = ClaimRow(
    subject: string, predicate_: string, object_: string, provenance: Provenance,
    confidence: real, status: ClaimStatus, sourceRefs: seq<string>, agentId: string,
    agentKind: AgentKind, writeTs: int, lastSeenAt: int, scope: string)

  datatype HyperedgeRow = HyperedgeRow(
    predicate_: string, provenance: Provenance, confidence: real, sourceRefs: seq<string>,
    createdAt: int, participants: seq<Participant>)

  datatype ContradictionRow = ContradictionRow(
    claimId: int, reason: string, newClaimId: Option<int>, createdAt: int)

  datatype ChunkRow = ChunkRow(
    claimId: int, text: string, embeddingModel: string, embedding: Option<seq<real>>, createdAt: int)

  datatype EntityRow = EntityRow(typeId: nat, requiresReview: bool, createdAt: int, lastSeenAt: int)

  datatype Extension = Extension(predicate_: string, agentId: string, createdAt: int)

  datatype EventRow = EventRow(
    sessionId: string, kind: string, payload: string, source: string, agentId: string,
    agentKind: AgentKind, ts: int, scope: string)

  datatype CandidateStatus = Pending | Promoted | Rejected

  datatype CandidateRow = CandidateRow(
    eventId: int, subject: string, predicate_: string, object_: string, status: CandidateStatus,
    promotedClaimId: Option<int>, rejectionReason: Option<string>, createdAt: int, scope: string)

  datatype ObservationRow = ObservationRow(
    sessionId: string, content: string, relevance: string, sourceEventIds: seq<int>,
    agentId: string, agentKind: string, derivation: string, ts: int, scope: string)

  datatype MarkerRow = MarkerRow(sessionId: string, prunedIds: seq<string>, ts: int)

  /** Tables written by the records of the claim log. */
  datatype ClaimTables = ClaimTables(
    vocabulary: Vocabulary, extensions: seq<Extension>,
    entityTypes: seq<TypeRow>, entities: map<string, EntityRow>,
    claims: map<int, ClaimRow>, hyperedges: map<int, HyperedgeRow>,
    contradictions: map<int, ContradictionRow>,
    chunks: map<int, ChunkRow>, vectorIndex: map<int, seq<real>>)

  /** Tables written by the records of the event log. */
  datatype EventTables = EventTables(events: map<int, EventRow>, candidates: map<int, CandidateRow>)

  /** Tables written by the records of the observation log. */
  datatype ObservationTables = ObservationTables(
    observations: map<string, ObservationRow>, markers: map<string, MarkerRow>)

  datatype Database = Database(core: ClaimTables, episodic: EventTables, notes: ObservationTables)

  datatype Applied = Applied | Duplicate

  /** Sqlite stands for a violated constraint or trigger, or a row a query needed. */
  datatype Error = InvalidRecord | DuplicateId | EnumParse | MissingEntityType | Sqlite

  datatype Outcome<+S> = Outcome(state: S, result: Result<Applied, Error>)

  const VECTOR_INDEX_DIM := 768

  predicate Within(c: real) { 0.0 <= c <= 1.0 }

  predicate NoRepeats<T(==)>(s: seq<T>) {
    forall i, j | 0 <= i < j < |s| :: s[i] != s[j]
  }

  // ----- ontology and entity side effects -----

  function ExtensionRow(predicate_: string, provenance: Provenance, root: nat, ts: int): TypeRow {
    TypeRow(predicate_, Some(root), false,
            if provenance == UserAsserted then "user_assertion" else "replay", Some(ts))
  }

  /** What the timestamp triggers refuse: times before 1970, and a row seen before it was created. */
  predicate SeenTooEarly(created: int, seen: int) {
    seen <= 0 || (created > 0 && seen < created)
  }

  /** ensure_predicate_known: an unknown predicate becomes a child of relates_to. The type row and the
      closure go in before the extension log, whose triggers look at the timestamp. */
  ghost function EnsurePredicateKnown(
    core: ClaimTables, predicate_: string, provenance: Provenance, agentId: string, ts: int)
    : (o: Outcome<ClaimTables>)
    ensures o.result != Ok(Duplicate)
    ensures o.state == core.(vocabulary := o.state.vocabulary, extensions := o.state.extensions)
    ensures o.result.Ok? ==> IdOf(o.state.vocabulary.rows, predicate_).Some? || predicate_ in o.state.vocabulary.aliases
  {
    var v := core.vocabulary;
    if IdOf(v.rows, predicate_).Some? || predicate_ in v.aliases then Outcome(core, Ok(Applied))
    else match IdOf(v.rows, "relates_to")
      case None => Outcome(core, Err(Sqlite))
      case Some(root) =>
        var rows := v.rows + [ExtensionRow(predicate_, provenance, root, ts)];
        assert rows[|v.rows|].name == predicate_;
        var extended := core.(vocabulary := v.(rows := rows, closure := Closure(rows)));
        if ts <= 0 then Outcome(extended, Err(Sqlite))
        else Outcome(extended.(extensions := core.extensions + [Extension(predicate_, agentId, ts)]), Ok(Applied))
  }

  /** The text before the first colon, if there is one. */
  function Prefix(entity: string): (p: Option<string>)
    ensures p.Some? ==> |p.value| < |entity| && entity[..|p.value|] == p.value
                        && entity[|p.value|] == ':' && ':' !in p.value
    ensures p.None? ==> ':' !in entity
  {
    if entity == "" then None
    else if entity[0] == ':' then Some("")
    else match Prefix(entity[1..])
      case None => None
      case Some(rest) => Some([entity[0]] + rest)
  }

  function InferEntityType(entityTypes: seq<TypeRow>, entity: string): string {
    var prefix := Prefix(entity);
    if prefix.Some? && IdOf(entityTypes, prefix.value).Some? then prefix.value
    else if entity == "User" then "Human"
    else if entity == "Claude" || entity == "Pi" then "Bot"
    else "Thing"
  }

  /** ensure_entity_on: insert, promote from Thing to a real type, or touch. */
  function EnsureEntity(
    entityTypes: seq<TypeRow>, entities: map<string, EntityRow>, entity: string, now: int)
    : Result<map<string, EntityRow>, Error>
  {
    match IdOf(entityTypes, "Thing")
    case None => Err(MissingEntityType)
    case Some(thing) =>
      var typeId := match IdOf(entityTypes, InferEntityType(entityTypes, entity))
        case Some(id) => id case None => thing;
      if SeenTooEarly(if entity in entities then entities[entity].createdAt else now, now) then Err(Sqlite)
      else if entity !in entities then
        Ok(entities[entity := EntityRow(typeId, typeId == thing, now, now)])
      else if entities[entity].typeId == thing && typeId != thing then
        Ok(entities[entity := entities[entity].(typeId := typeId, requiresReview := false, lastSeenAt := now)])
      else
        Ok(entities[entity := entities[entity].(lastSeenAt := now)])
  }

  // ----- claim log records -----

  predicate SameClaim(row: ClaimRow, r: LogRecord, kind: AgentKind)
    requires r.AddClaim?
  {
    && row.subject == r.subject && row.predicate_ == r.predicate_ && row.object_ == r.object_
    && row.agentId == r.agentId && row.agentKind == kind && row.scope == r.scope
  }

  /** Subject, then object; entities touched before a failure stay touched. */
  ghost function TouchBoth(core: ClaimTables, subject: string, object_: string, ts: int): (o: Outcome<ClaimTables>)
    ensures o.state == core.(entities := o.state.entities) && o.result != Ok(Duplicate)
  {
    match EnsureEntity(core.entityTypes, core.entities, subject, ts)
    case Err(e) => Outcome(core, Err(e))
    case Ok(first) =>
      match EnsureEntity(core.entityTypes, first, object_, ts)
      case Err(e) => Outcome(core.(entities := first), Err(e))
      case Ok(both) => Outcome(core.(entities := both), Ok(Applied))
  }

  ghost function InsertClaim(core: ClaimTables, r: LogRecord, kind: AgentKind, provenance: Provenance)
    : (o: Outcome<ClaimTables>)
    requires r.AddClaim? && r.claimId !in core.claims
    ensures o.result != Ok(Duplicate)
    ensures o.state.claims == if o.result.Ok? then core.claims[r.claimId := NewClaim(r, kind, provenance)]
            else core.claims
    ensures o.state == core.(claims := o.state.claims, entities := o.state.entities,
                             vocabulary := o.state.vocabulary, extensions := o.state.extensions)
    ensures o.result.Ok? ==> Within(r.confidence)
  {
    var known := EnsurePredicateKnown(core, r.predicate_, provenance, r.agentId, r.ts);
    if known.result.Err? then known
    else
      var o := TouchBoth(known.state, r.subject, r.object_, r.ts);
      if o.result.Err? then o
      else if !Within(r.confidence) then Outcome(o.state, Err(Sqlite))
      else Outcome(o.state.(claims := o.state.claims[r.claimId := NewClaim(r, kind, provenance)]), Ok(Applied))
  }

  /** The provenance a record states, or the one its agent kind implies. */
  function StatedProvenance(r: LogRecord, kind: AgentKind): Option<Provenance>
    requires r.AddClaim?
  {
    if r.provenance.None? then Some(kind.DefaultProvenance()) else ParseProvenance(r.provenance.value)
  }

  ghost function ApplyAddClaim(core: ClaimTables, r: LogRecord): Outcome<ClaimTables>
    requires r.AddClaim?
  {
    match ParseAgentKind(r.agentKind)
    case None => Outcome(core, Err(EnumParse))
    case Some(kind) =>
      match StatedProvenance(r, kind)
      case None => Outcome(core, Err(InvalidRecord))
      case Some(provenance) =>
        if r.claimId in core.claims then
          Outcome(core, if SameClaim(core.claims[r.claimId], r, kind) then Ok(Duplicate) else Err(DuplicateId))
        else InsertClaim(core, r, kind, provenance)
  }

  function NewClaim(r: LogRecord, kind: AgentKind, provenance: Provenance): ClaimRow
    requires r.AddClaim?
  {
    ClaimRow(r.subject, r.predicate_, r.object_, provenance, r.confidence, Active, [r.source],
             r.agentId, kind, r.ts, r.ts, r.scope)
  }

  predicate SameHyperedge(row: HyperedgeRow, r: LogRecord)
    requires r.AddHyperedge?
  {
    && row.predicate_ == r.predicate_ && row.provenance.Name() == r.provenanceName
    && -0.000000001 < row.confidence - r.confidence < 0.000000001
    && row.sourceRefs == r.sourceRefs && row.participants == r.participants
  }

  /** One participant: its entity, then its row, unless the role and entity are there already. */
  ghost function AddParticipant(core: ClaimTables, id: int, p: Participant, ts: int): (o: Outcome<ClaimTables>)
    requires id in core.hyperedges
    ensures o.result != Ok(Duplicate) && id in o.state.hyperedges
    ensures o.state == core.(entities := o.state.entities, hyperedges := core.hyperedges[id := o.state.hyperedges[id]])
    ensures o.result.Ok? ==> (o.state.hyperedges[id]
              == core.hyperedges[id].(participants := core.hyperedges[id].participants + [p]))
  {
    var edge := core.hyperedges[id];
    assert core.hyperedges == core.hyperedges[id := edge];
    match EnsureEntity(core.entityTypes, core.entities, p.entity, ts)
    case Err(e) => Outcome(core, Err(e))
    case Ok(entities) =>
      if p in edge.participants then Outcome(core.(entities := entities), Err(Sqlite))
      else Outcome(core.(entities := entities,
                         hyperedges := core.hyperedges[id := edge.(participants := edge.participants + [p])]),
                   Ok(Applied))
  }

  /** Participant rows go in one by one; a failing one stops the loop. */
  ghost function AddParticipants(core: ClaimTables, id: int, participants: seq<Participant>, ts: int)
    : (o: Outcome<ClaimTables>)
    requires id in core.hyperedges
    ensures o.result != Ok(Duplicate) && id in o.state.hyperedges
    ensures o.state == core.(entities := o.state.entities, hyperedges := core.hyperedges[id := o.state.hyperedges[id]])
    ensures o.result.Ok? ==> (o.state.hyperedges[id]
              == core.hyperedges[id].(participants := core.hyperedges[id].participants + participants))
    decreases |participants|
  {
    if participants == [] then
      assert core.hyperedges[id].participants + participants == core.hyperedges[id].participants;
      assert core.hyperedges == core.hyperedges[id := core.hyperedges[id]];
      Outcome(core, Ok(Applied))
    else
      var first := AddParticipant(core, id, participants[0], ts);
      if first.result.Err? then first
      else
        var have := core.hyperedges[id].participants;
        assert have + participants == have + [participants[0]] + participants[1..];
        AddParticipants(first.state, id, participants[1..], ts)
  }

  /** The hyperedge row goes in first, without participants. */
  ghost function InsertEdgeRows(core: ClaimTables, r: LogRecord, edge: HyperedgeRow): (o: Outcome<ClaimTables>)
    requires r.AddHyperedge? && edge.participants == []
    ensures o.result != Ok(Duplicate)
    ensures o.state == core.(hyperedges := o.state.hyperedges, entities := o.state.entities)
    ensures o.result.Ok? ==>
              o.state.hyperedges == core.hyperedges[r.hyperedgeId := edge.(participants := r.participants)]
  {
    assert [] + r.participants == r.participants;
    var start := core.(hyperedges := core.hyperedges[r.hyperedgeId := edge]);
    var o := AddParticipants(start, r.hyperedgeId, r.participants, r.ts);
    assert start.hyperedges[r.hyperedgeId := o.state.hyperedges[r.hyperedgeId]]
        == core.hyperedges[r.hyperedgeId := o.state.hyperedges[r.hyperedgeId]];
    o
  }

  ghost function InsertHyperedge(core: ClaimTables, r: LogRecord, provenance: Provenance): (o: Outcome<ClaimTables>)
    requires r.AddHyperedge?
    ensures o.result != Ok(Duplicate)
    ensures o.state == core.(hyperedges := o.state.hyperedges, entities := o.state.entities,
                             vocabulary := o.state.vocabulary, extensions := o.state.extensions)
    ensures o.result.Ok? ==> o.state.hyperedges == core.hyperedges[r.hyperedgeId :=
              HyperedgeRow(r.predicate_, provenance, r.confidence, r.sourceRefs, r.ts, r.participants)]
  {
    var known := EnsurePredicateKnown(core, r.predicate_, provenance, "local", r.ts);
    if known.result.Err? then known
    else if !Within(r.confidence) || !NoRepeats(r.sourceRefs) || r.ts <= 0 then Outcome(known.state, Err(Sqlite))
    else InsertEdgeRows(known.state, r, HyperedgeRow(r.predicate_, provenance, r.confidence, r.sourceRefs, r.ts, []))
  }

  ghost function ApplyAddHyperedge(core: ClaimTables, r: LogRecord): Outcome<ClaimTables>
    requires r.AddHyperedge?
  {
    match ParseProvenance(r.provenanceName)
    case None => Outcome(core, Err(EnumParse))
    case Some(provenance) =>
      if r.hyperedgeId in core.hyperedges then
        Outcome(core, if SameHyperedge(core.hyperedges[r.hyperedgeId], r) then Ok(Duplicate) else Err(DuplicateId))
      else InsertHyperedge(core, r, provenance)
  }

  function Marker(reason: string): string { "retired:" + reason }

  function ApplyRetire(claims: map<int, ClaimRow>, r: LogRecord): Outcome<map<int, ClaimRow>>
    requires r.RetireClaim?
  {
    if r.claimId !in claims then Outcome(claims, Err(InvalidRecord))
    else
      var row := claims[r.claimId];
      if row.status == Invalidated then
        Outcome(claims, if Marker(r.reason) in row.sourceRefs then Ok(Duplicate) else Err(DuplicateId))
      else
        var refs := row.sourceRefs + [Marker(r.reason)];
        if !NoRepeats(refs) || SeenTooEarly(row.writeTs, r.ts) then Outcome(claims, Err(Sqlite))
        else Outcome(claims[r.claimId := row.(status := Invalidated, sourceRefs := refs, lastSeenAt := r.ts)],
                     Ok(Applied))
  }

  function ApplyContradiction(core: ClaimTables, r: LogRecord): Outcome<ClaimTables>
    requires r.AddContradiction?
  {
    if r.contradictionId in core.contradictions then
      var row := core.contradictions[r.contradictionId];
      Outcome(core, if row.claimId == r.claimId && row.reason == r.reason && row.newClaimId == r.newClaimId
                    then Ok(Duplicate) else Err(DuplicateId))
    else if r.claimId !in core.claims || (r.newClaimId.Some? && r.newClaimId.value !in core.claims)
            || r.newClaimId == Some(r.claimId) || r.ts <= 0 then
      Outcome(core, Err(Sqlite))
    else
      var row := ContradictionRow(r.claimId, r.reason, r.newClaimId, r.ts);
      Outcome(core.(contradictions := core.contradictions[r.contradictionId := row]), Ok(Applied))
  }

  /** Ids are flipped one by one; a missing one stops the loop. */
  function ApplySupersede(claims: map<int, ClaimRow>, ids: seq<int>): Outcome<map<int, ClaimRow>> {
    if ids == [] then Outcome(claims, Ok(Applied))
    else if ids[0] !in claims then Outcome(claims, Err(InvalidRecord))
    else if claims[ids[0]].status == Superseded then ApplySupersede(claims, ids[1..])
    else ApplySupersede(claims[ids[0] := claims[ids[0]].(status := Superseded)], ids[1..])
  }

  /** Changes are written one by one; a missing claim or an out-of-range value stops the loop. */
  function ApplyDecay(claims: map<int, ClaimRow>, changes: seq<ConfidenceChange>): Outcome<map<int, ClaimRow>> {
    if changes == [] then Outcome(claims, Ok(Applied))
    else if changes[0].claimId !in claims then Outcome(claims, Err(InvalidRecord))
    else if !Within(changes[0].confidence) then Outcome(claims, Err(Sqlite))
    else ApplyDecay(
      claims[changes[0].claimId := claims[changes[0].claimId].(confidence := changes[0].confidence)],
      changes[1..])
  }

  function Max(a: real, b: real): real { if a >= b then a else b }

  function ApplyMerge(claims: map<int, ClaimRow>, r: LogRecord): Outcome<map<int, ClaimRow>>
    requires r.MergeSourceRefs?
  {
    if r.claimId !in claims then Outcome(claims, Err(InvalidRecord))
    else if !NoRepeats(r.sourceRefs) then Outcome(claims, Err(Sqlite))
    else
      var row := claims[r.claimId].(sourceRefs := r.sourceRefs);
      Outcome(claims[r.claimId := if r.promote
                                  then row.(provenance := Extracted, confidence := Max(row.confidence, 0.75))
                                  else row],
              Ok(Applied))
  }

  /** Only embeddings of the index dimension enter the vector index, and never twice. */
  function Index(index: map<int, seq<real>>, chunkId: int, embedding: seq<real>): map<int, seq<real>> {
    if |embedding| == VECTOR_INDEX_DIM && chunkId !in index then index[chunkId := embedding] else index
  }

  function ApplyAddChunk(core: ClaimTables, r: LogRecord): Outcome<ClaimTables>
    requires r.AddVectorChunk?
  {
    if r.chunkId in core.chunks then
      var row := core.chunks[r.chunkId];
      Outcome(core, if row.claimId == r.claimId && row.text == r.text && row.embeddingModel == r.embeddingModel
                       && row.embedding == r.embedding
                    then Ok(Duplicate) else Err(DuplicateId))
    else if r.claimId !in core.claims || r.embedding == Some([]) || r.ts <= 0 then Outcome(core, Err(Sqlite))
    else
      var row := ChunkRow(r.claimId, r.text, r.embeddingModel, r.embedding, r.ts);
      Outcome(core.(chunks := core.chunks[r.chunkId := row],
                    vectorIndex := if r.embedding.Some? then Index(core.vectorIndex, r.chunkId, r.embedding.value)
                                   else core.vectorIndex),
              Ok(Applied))
  }

  function ApplyEmbedChunk(core: ClaimTables, r: LogRecord): Outcome<ClaimTables>
    requires r.EmbedVectorChunk?
  {
    if r.chunkId !in core.chunks then Outcome(core, Err(InvalidRecord))
    else
      var row := core.chunks[r.chunkId];
      match row.embedding
      case Some(current) => Outcome(core, if current == r.newEmbedding then Ok(Duplicate) else Err(DuplicateId))
      case None =>
        if r.newEmbedding == [] then Outcome(core, Err(Sqlite))
        else Outcome(core.(chunks := core.chunks[r.chunkId := row.(embedding := Some(r.newEmbedding))],
                           vectorIndex := Index(core.vectorIndex, r.chunkId, r.newEmbedding)),
                     Ok(Applied))
  }

  ghost function OnClaims(core: ClaimTables, o: Outcome<map<int, ClaimRow>>): Outcome<ClaimTables> {
    Outcome(core.(claims := o.state), o.result)
  }

  ghost function ApplyCore(core: ClaimTables, r: LogRecord): Outcome<ClaimTables>
    requires SeriesOf(r) == ClaimLog
  {
    if r.AddClaim? then ApplyAddClaim(core, r)
    else if r.AddHyperedge? then ApplyAddHyperedge(core, r)
    else if r.RetireClaim? then OnClaims(core, ApplyRetire(core.claims, r))
    else if r.AddContradiction? then ApplyContradiction(core, r)
    else if r.SupersedeClaims? then OnClaims(core, ApplySupersede(core.claims, r.claimIds))
    else if r.DecayConfidence? then OnClaims(core, ApplyDecay(core.claims, r.changes))
    else if r.MergeSourceRefs? then OnClaims(core, ApplyMerge(core.claims, r))
    else if r.AddVectorChunk? then ApplyAddChunk(core, r)
    else ApplyEmbedChunk(core, r)
  }

  // ----- event log records -----

  function ApplyEvent(t: EventTables, r: LogRecord): Outcome<EventTables>
    requires r.RecordEvent?
  {
    if r.eventId in t.events then
      var row := t.events[r.eventId];
      Outcome(t, if row.sessionId == r.sessionId && row.kind == r.eventKind && row.payload == r.payload
                    && row.source == r.source && row.agentId == r.agentId && row.agentKind.Name() == r.agentKind
                 then Ok(Duplicate) else Err(DuplicateId))
    else match ParseAgentKind(r.agentKind)
      case None => Outcome(t, Err(Sqlite))
      case Some(kind) =>
        if r.ts <= 0 then Outcome(t, Err(Sqlite))
        else
          var row := EventRow(r.sessionId, r.eventKind, r.payload, r.source, r.agentId, kind, r.ts, r.scope);
          Outcome(t.(events := t.events[r.eventId := row]), Ok(Applied))
  }

  function ApplyPropose(t: EventTables, r: LogRecord): Outcome<EventTables>
    requires r.ProposeCandidate?
  {
    if r.candidateId in t.candidates then
      var row := t.candidates[r.candidateId];
      Outcome(t, if row.eventId == r.eventId && row.subject == r.subject && row.predicate_ == r.predicate_
                    && row.object_ == r.object_ && row.scope == r.scope
                 then Ok(Duplicate) else Err(DuplicateId))
    else if r.eventId !in t.events || r.ts <= 0 then Outcome(t, Err(Sqlite))
    else
      var row := CandidateRow(r.eventId, r.subject, r.predicate_, r.object_, Pending, None, None, r.ts, r.scope);
      Outcome(t.(candidates := t.candidates[r.candidateId := row]), Ok(Applied))
  }

  /** A recorded decision must name a model and the choice the record stands for. */
  predicate DecisionFits(decision: Option<Decision>, choice: string) {
    decision.Some? ==> !Blank(decision.value.model) && decision.value.choice == choice
  }

  function ApplyPromote(t: EventTables, claimIds: set<int>, r: LogRecord): Outcome<EventTables>
    requires r.PromoteCandidate?
  {
    if !DecisionFits(r.decision, "promote") || r.candidateId !in t.candidates then Outcome(t, Err(InvalidRecord))
    else
      var row := t.candidates[r.candidateId];
      match row.status
      case Promoted => Outcome(t, if row.promotedClaimId == Some(r.claimId) then Ok(Duplicate) else Err(DuplicateId))
      case Rejected => Outcome(t, Err(InvalidRecord))
      case Pending =>
        if r.claimId !in claimIds then Outcome(t, Err(InvalidRecord))
        else Outcome(t.(candidates := t.candidates[r.candidateId :=
                       row.(status := Promoted, promotedClaimId := Some(r.claimId))]), Ok(Applied))
  }

  function ApplyReject(t: EventTables, r: LogRecord): Outcome<EventTables>
    requires r.RejectCandidate?
  {
    if !DecisionFits(r.decision, "reject") || r.candidateId !in t.candidates then Outcome(t, Err(InvalidRecord))
    else
      var row := t.candidates[r.candidateId];
      match row.status
      case Rejected => Outcome(t, if row.rejectionReason == Some(r.reason) then Ok(Duplicate) else Err(DuplicateId))
      case Promoted => Outcome(t, Err(InvalidRecord))
      case Pending => Outcome(t.(candidates := t.candidates[r.candidateId :=
                                row.(status := Rejected, rejectionReason := Some(r.reason))]), Ok(Applied))
  }

  /** Event log records see the claims table only as a set of ids. */
  function ApplyEpisodic(t: EventTables, claimIds: set<int>, r: LogRecord): Outcome<EventTables>
    requires SeriesOf(r) == EventLog
  {
    if r.RecordEvent? then ApplyEvent(t, r)
    else if r.ProposeCandidate? then ApplyPropose(t, r)
    else if r.PromoteCandidate? then ApplyPromote(t, claimIds, r)
    else ApplyReject(t, r)
  }

  // ----- observation log records -----

  predicate KnownRelevance(text: string) {
    text == "low" || text == "medium" || text == "high" || text == "critical"
  }

  function ApplyNotes(t: ObservationTables, r: LogRecord): Outcome<ObservationTables>
    requires SeriesOf(r) == ObservationLog
  {
    if r.RecordObservation? then
      if r.observationId in t.observations then
        var row := t.observations[r.observationId];
        Outcome(t, if row.sessionId == r.sessionId && row.content == r.content && row.relevance == r.relevance
                      && row.sourceEventIds == r.sourceEventIds && row.agentId == r.agentId
                      && row.agentKind == r.agentKind && row.derivation == r.derivation
                   then Ok(Duplicate) else Err(DuplicateId))
      else if !KnownRelevance(r.relevance) || ParseAgentKind(r.agentKind).None? || !NoRepeats(r.sourceEventIds)
              || r.ts <= 0 then
        Outcome(t, Err(Sqlite))
      else
        var row := ObservationRow(r.sessionId, r.content, r.relevance, r.sourceEventIds, r.agentId,
                                  r.agentKind, r.derivation, r.ts, r.scope);
        Outcome(t.(observations := t.observations[r.observationId := row]), Ok(Applied))
    else
      if r.markerId in t.markers then
        var row := t.markers[r.markerId];
        Outcome(t, if row.sessionId == r.sessionId && row.prunedIds == r.prunedIds && row.ts == r.ts
                   then Ok(Duplicate) else Err(DuplicateId))
      else if !NoRepeats(r.prunedIds) || r.ts <= 0 then Outcome(t, Err(Sqlite))
      else Outcome(t.(markers := t.markers[r.markerId := MarkerRow(r.sessionId, r.prunedIds, r.ts)]), Ok(Applied))
  }

  // ----- all records -----

  /** apply: one record against the whole database. */
  ghost function ApplyRecord(db: Database, r: LogRecord): Outcome<Database> {
    match SeriesOf(r)
    case ClaimLog =>
      var o := ApplyCore(db.core, r);
      Outcome(db.(core := o.state), o.result)
    case EventLog =>
      var o := ApplyEpisodic(db.episodic, db.core.claims.Keys, r);
      Outcome(db.(episodic := o.state), o.result)
    case ObservationLog =>
      var o := ApplyNotes(db.notes, r);
      Outcome(db.(notes := o.state), o.result)
  }
}
