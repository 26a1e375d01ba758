/** Exactly when a live call leaves its log ahead of the database: the lines are
    appended first, and a constraint the writer did not check refuses them. */
module LogAhead {
  import opened Prelude
  import opened Records
  import opened Ontology
  import opened Projection
  import opened Consolidation
  import opened Compaction
  import opened Writers
  import opened Runs
  import opened Lifecycle
  import opened LiveRuns
  import opened ReplayTheorem

  ghost predicate RefsUnique(claims: Claims) {
    forall id :: id in claims ==> NoRepeats(claims[id].sourceRefs)
  }

  /** The seeded rows the projection relies on, and duplicate-free references. */
  ghost predicate Grounded(core: ClaimTables) {
    && IdOf(core.vocabulary.rows, "relates_to").Some? && IdOf(core.entityTypes, "Thing").Some?
    && RefsUnique(core.claims)
  }

  // ----- groundedness lasts -----

  lemma ExtensionKeepsNames(rows: seq<TypeRow>, row: TypeRow, name: string)
    requires IdOf(rows, name).Some?
    ensures IdOf(rows + [row], name).Some?
  {
    assert (rows + [row])[IdOf(rows, name).value].name == name;
  }

  lemma {:induction false} DecayKeepsRefs(claims: Claims, changes: seq<ConfidenceChange>)
    requires RefsUnique(claims)
    ensures RefsUnique(ApplyDecay(claims, changes).state)
    decreases |changes|
  {
    if changes != [] && changes[0].claimId in claims && Within(changes[0].confidence) {
      DecayKeepsRefs(claims[changes[0].claimId := claims[changes[0].claimId].(confidence := changes[0].confidence)],
                     changes[1..]);
    }
  }

  lemma EnsureKeepsNames(core: ClaimTables, predicate_: string, p: Provenance, agentId: string, ts: int, name: string)
    requires IdOf(core.vocabulary.rows, name).Some?
    ensures IdOf(EnsurePredicateKnown(core, predicate_, p, agentId, ts).state.vocabulary.rows, name).Some?
  {
    if IdOf(core.vocabulary.rows, predicate_).None? && predicate_ !in core.vocabulary.aliases
       && IdOf(core.vocabulary.rows, "relates_to").Some? {
      ExtensionKeepsNames(core.vocabulary.rows,
        ExtensionRow(predicate_, p, IdOf(core.vocabulary.rows, "relates_to").value, ts), name);
    }
  }

  lemma InsertionStaysGrounded(core: ClaimTables, r: LogRecord)
    requires (r.AddClaim? && r.claimId !in core.claims) || (r.AddHyperedge? && r.hyperedgeId !in core.hyperedges)
    requires Grounded(core) && ApplyCore(core, r).result.Ok?
    ensures Grounded(ApplyCore(core, r).state)
  {
    if r.AddClaim? {
      var kind := ParseAgentKind(r.agentKind).value;
      var p := StatedProvenance(r, kind).value;
      EnsureKeepsNames(core, r.predicate_, p, r.agentId, r.ts, "relates_to");
      var o := InsertClaim(core, r, kind, p);
    } else {
      var p := ParseProvenance(r.provenanceName).value;
      EnsureKeepsNames(core, r.predicate_, p, "local", r.ts, "relates_to");
      var o := InsertHyperedge(core, r, p);
    }
  }

  lemma LineStaysGrounded(core: ClaimTables, r: LogRecord)
    requires SeriesOf(r) == ClaimLog && Grounded(core) && ApplyCore(core, r).result.Ok?
    ensures Grounded(ApplyCore(core, r).state)
  {
    if (r.AddClaim? && r.claimId !in core.claims) || (r.AddHyperedge? && r.hyperedgeId !in core.hyperedges) {
      InsertionStaysGrounded(core, r);
    } else if r.SupersedeClaims? || r.DecayConfidence? {
      StatusLineStaysGrounded(core, r);
    }
  }

  lemma StatusLineStaysGrounded(core: ClaimTables, r: LogRecord)
    requires (r.SupersedeClaims? || r.DecayConfidence?) && Grounded(core) && ApplyCore(core, r).result.Ok?
    ensures Grounded(ApplyCore(core, r).state)
  {
    if r.SupersedeClaims? {
      SupersedeNeedsItsIds(core.claims, r.claimIds);
      SupersedeIsPointwise(core.claims, r.claimIds);
    } else {
      DecayKeepsRefs(core.claims, r.changes);
    }
  }

  lemma {:induction false} LinesStayGrounded(db: Database, records: seq<LogRecord>)
    requires Grounded(db.core) && ApplyAll(db, records).result.Ok?
    ensures Grounded(ApplyAll(db, records).state.core)
    decreases |records|
  {
    if records != [] {
      if SeriesOf(records[0]) == ClaimLog { LineStaysGrounded(db.core, records[0]); }
      LinesStayGrounded(ApplyRecord(db, records[0]).state, records[1..]);
    }
  }

  lemma StepStaysGrounded(s: Live, op: Op)
    requires Grounded(s.db.core)
    ensures Grounded(Step(s, op).live.db.core)
  {
    match PlanOf(s, op)
    case Refuse =>
    case Nothing =>
    case Write(lastId, records) =>
      assert Step(s, op) == Commit(s.(lastId := lastId), records);
      CommitStaysGrounded(s.(lastId := lastId), records);
  }

  lemma CommitStaysGrounded(s: Live, records: seq<LogRecord>)
    requires Grounded(s.db.core)
    ensures Grounded(Commit(s, records).live.db.core)
  {
    AppendKeepsDatabase(s, records);
    if ApplyAll(s.db, records).result.Ok? { LinesStayGrounded(s.db, records); }
  }

  /** Grounded stores stay grounded over every run. */
  lemma {:induction false} RunStaysGrounded(s: Live, ops: seq<Op>)
    requires Grounded(s.db.core)
    ensures Grounded(Run(s, ops).db.core)
    decreases |ops|
  {
    if ops != [] {
      RunStaysGrounded(s, ops[..|ops| - 1]);
      StepStaysGrounded(Run(s, ops[..|ops| - 1]), ops[|ops| - 1]);
    }
  }

  // ----- when the lines apply -----

  /** The clock stands before the creation of a row the call would touch, or before 1970. */
  predicate Stale(entities: map<string, EntityRow>, entity: string, ts: int) {
    SeenTooEarly(if entity in entities then entities[entity].createdAt else ts, ts)
  }

  ghost predicate PromotionTrips(s: Live, op: Op)
    requires op.Promote?
  {
    || !DecisionFits(op.decision, "promote") || (op.attribution.Some? && !Within(op.attribution.value.1))
    || (op.candidateId in s.db.episodic.candidates
        && (Stale(s.db.core.entities, s.db.episodic.candidates[op.candidateId].subject, op.ts)
            || Stale(s.db.core.entities, s.db.episodic.candidates[op.candidateId].object_, op.ts)))
  }

  /** What each call must avoid for its lines to apply; everything else is checked up front. */
  ghost predicate Trips(s: Live, op: Op) {
    var core := s.db.core;
    match op
    case WriteClaim(ts, _, w) => Stale(core.entities, w.subject, ts) || Stale(core.entities, w.object_, ts)
    case WriteHyperedge(ts, _, _, _, _, refs, participants) =>
      || !NoRepeats(refs) || !NoRepeats(participants)
      || exists k :: 0 <= k < |participants| && Stale(core.entities, participants[k].entity, ts)
    case WriteEvent(ts, _, _, _, _, _, _, _, _) => ts <= 0
    case WriteObservation(ts, _, _, _, _, eventIds, _, _) => !NoRepeats(eventIds) || ts <= 0
    case Prune(ts, hash, _, _) => hash in s.db.notes.markers || ts <= 0
    case Retire(ts, claimId, reason) =>
      claimId in core.claims
      && (Marker(reason) in core.claims[claimId].sourceRefs || SeenTooEarly(core.claims[claimId].writeTs, ts))
    case Contradict(ts, _, _, _, _) => ts <= 0
    case Propose(ts, _, _, _, _, _, _) => ts <= 0
    case Promote(_, _, _, _, _) => PromotionTrips(s, op)
    case Reject(_, _, _, decision) => !DecisionFits(decision, "reject")
    case WriteChunk(ts, _, _, _, _, _) => ts <= 0
    case Backfill(_, _, vector) => vector == []
    case _ => false
  }

  /** Touching one entity fails exactly when it is stale, and leaves the others as stale as they were. */
  lemma TouchFails(types: seq<TypeRow>, entities: map<string, EntityRow>, entity: string, ts: int)
    requires IdOf(types, "Thing").Some?
    ensures EnsureEntity(types, entities, entity, ts).Ok? <==> !Stale(entities, entity, ts)
    ensures EnsureEntity(types, entities, entity, ts).Ok? ==>
              forall other :: Stale(EnsureEntity(types, entities, entity, ts).value, other, ts) <==>
                  Stale(entities, other, ts)
  {
  }

  ghost predicate AnyStale(entities: map<string, EntityRow>, participants: seq<Participant>, ts: int) {
    exists k :: 0 <= k < |participants| && Stale(entities, participants[k].entity, ts)
  }

  lemma AnyStaleSplits(entities: map<string, EntityRow>, participants: seq<Participant>, ts: int)
    requires participants != []
    ensures AnyStale(entities, participants, ts) <==>
              Stale(entities, participants[0].entity, ts) || AnyStale(entities, participants[1..], ts)
  {
    if AnyStale(entities, participants[1..], ts) {
      var k :| 0 <= k < |participants[1..]| && Stale(entities, participants[1..][k].entity, ts);
      assert Stale(entities, participants[k + 1].entity, ts);
    }
    if AnyStale(entities, participants, ts) && !Stale(entities, participants[0].entity, ts) {
      var k :| 0 <= k < |participants| && Stale(entities, participants[k].entity, ts);
      assert Stale(entities, participants[1..][k - 1].entity, ts);
    }
  }

  lemma SameStaleness(a: map<string, EntityRow>, b: map<string, EntityRow>, participants: seq<Participant>, ts: int)
    requires forall name :: Stale(a, name, ts) <==> Stale(b, name, ts)
    ensures AnyStale(a, participants, ts) <==> AnyStale(b, participants, ts)
  {
  }

  lemma RepeatsSplit(have: seq<Participant>, participants: seq<Participant>)
    requires NoRepeats(have) && participants != []
    ensures NoRepeats(have + participants) ==> participants[0] !in have
    ensures participants[0] !in have ==> NoRepeats(have + [participants[0]])
    ensures have + [participants[0]] + participants[1..] == have + participants
  {
    var all := have + participants;
    assert all[|have|] == participants[0];
    assert forall k :: 0 <= k < |have| ==> all[k] == have[k];
  }

  lemma {:induction false} ParticipantsApply(core: ClaimTables, id: int, participants: seq<Participant>, ts: int)
    requires id in core.hyperedges && IdOf(core.entityTypes, "Thing").Some?
    requires NoRepeats(core.hyperedges[id].participants)
    ensures AddParticipants(core, id, participants, ts).result.Ok?
       <==> NoRepeats(core.hyperedges[id].participants + participants) && !AnyStale(core.entities, participants, ts)
    decreases |participants|
  {
    var have := core.hyperedges[id].participants;
    if participants == [] {
      assert have + participants == have;
    } else {
      var entity := participants[0].entity;
      TouchFails(core.entityTypes, core.entities, entity, ts);
      AnyStaleSplits(core.entities, participants, ts);
      RepeatsSplit(have, participants);
      var first := AddParticipant(core, id, participants[0], ts);
      if first.result.Ok? {
        SameStaleness(core.entities, first.state.entities, participants[1..], ts);
        ParticipantsApply(first.state, id, participants[1..], ts);
      }
    }
  }

  lemma KnownWhenGrounded(core: ClaimTables, predicate_: string, p: Provenance, agentId: string, ts: int)
    requires Grounded(core)
    ensures ts > 0 ==> EnsurePredicateKnown(core, predicate_, p, agentId, ts).result.Ok?
  {
  }

  lemma HyperedgeApplies(core: ClaimTables, r: LogRecord, p: Provenance)
    requires Grounded(core) && r.AddHyperedge? && r.hyperedgeId !in core.hyperedges && r.participants != []
    requires r.provenanceName == p.Name() && Within(r.confidence)
    ensures ApplyAddHyperedge(core, r).result.Ok? <==>
              NoRepeats(r.sourceRefs) && NoRepeats(r.participants) && !AnyStale(core.entities, r.participants, r.ts)
  {
    HyperedgeInserted(core, r, p);
    KnownWhenGrounded(core, r.predicate_, p, "local", r.ts);
    var known := EnsurePredicateKnown(core, r.predicate_, p, "local", r.ts).state;
    var edge := HyperedgeRow(r.predicate_, p, r.confidence, r.sourceRefs, r.ts, []);
    assert [] + r.participants == r.participants;
    ParticipantsApply(known.(hyperedges := known.hyperedges[r.hyperedgeId := edge]), r.hyperedgeId, r.participants,
                      r.ts);
    assert r.ts <= 0 ==> Stale(core.entities, r.participants[0].entity, r.ts);
  }

  lemma HyperedgeInserted(core: ClaimTables, r: LogRecord, p: Provenance)
    requires r.AddHyperedge? && r.hyperedgeId !in core.hyperedges && r.provenanceName == p.Name()
    ensures ApplyAddHyperedge(core, r) == InsertHyperedge(core, r, p)
  {
  }

  lemma BothTouched(core: ClaimTables, subject: string, object_: string, ts: int)
    requires IdOf(core.entityTypes, "Thing").Some?
    ensures TouchBoth(core, subject, object_, ts).result.Ok? <==>
              !Stale(core.entities, subject, ts) && !Stale(core.entities, object_, ts)
  {
    TouchFails(core.entityTypes, core.entities, subject, ts);
    if !Stale(core.entities, subject, ts) {
      TouchFails(core.entityTypes, EnsureEntity(core.entityTypes, core.entities, subject, ts).value, object_, ts);
    }
  }

  lemma ClaimApplies(core: ClaimTables, r: LogRecord, kind: AgentKind, p: Provenance)
    requires Grounded(core) && r.AddClaim? && r.claimId !in core.claims
    requires r.agentKind == kind.Name() && r.provenance == Some(p.Name())
    ensures ApplyAddClaim(core, r).result.Ok? <==>
              Within(r.confidence) && !Stale(core.entities, r.subject, r.ts) && !Stale(core.entities, r.object_, r.ts)
    ensures ApplyAddClaim(core, r).result.Ok? ==> r.claimId in ApplyAddClaim(core, r).state.claims
  {
    assert ApplyAddClaim(core, r) == InsertClaim(core, r, kind, p);
    KnownWhenGrounded(core, r.predicate_, p, r.agentId, r.ts);
    BothTouched(EnsurePredicateKnown(core, r.predicate_, p, r.agentId, r.ts).state, r.subject, r.object_, r.ts);
  }

  lemma ChangesApply(claims: Claims, changes: seq<ConfidenceChange>)
    requires forall k :: 0 <= k < |changes| ==> changes[k].claimId in claims && Within(changes[k].confidence)
    ensures ApplyDecay(claims, changes).result.Ok?
    decreases |changes|
  {
    if changes != [] {
      assert forall k :: 0 < k < |changes| ==> changes[k] == changes[1..][k - 1];
      ChangesApply(claims[changes[0].claimId := claims[changes[0].claimId].(confidence := changes[0].confidence)],
                   changes[1..]);
    }
  }

  lemma RetireApplies(claims: Claims, r: LogRecord)
    requires r.RetireClaim? && r.claimId in claims && claims[r.claimId].status != Invalidated
    requires NoRepeats(claims[r.claimId].sourceRefs)
    ensures ApplyRetire(claims, r).result.Ok? <==>
              Marker(r.reason) !in claims[r.claimId].sourceRefs && !SeenTooEarly(claims[r.claimId].writeTs, r.ts)
  {
    var refs := claims[r.claimId].sourceRefs;
    assert (refs + [Marker(r.reason)])[|refs|] == Marker(r.reason);
    assert forall k :: 0 <= k < |refs| ==> (refs + [Marker(r.reason)])[k] == refs[k];
  }

  lemma SingleLine(db: Database, r: LogRecord)
    ensures ApplyAll(db, [r]).result.Err? <==> ApplyRecord(db, r).result.Err?
  {
  }

  lemma MintedLineApplies(s: Live, op: Op)
    requires Healthy(s.db, s.lastId) && Grounded(s.db.core) && PlanOf(s, op).Write?
    requires op.WriteClaim? || op.WriteHyperedge? || op.WriteEvent? || op.Contradict? || op.Propose? || op.WriteChunk?
    ensures |PlanOf(s, op).records| == 1
    ensures ApplyRecord(s.db, PlanOf(s, op).records[0]).result.Err? <==> Trips(s, op)
  {
    MintedLineIsSound(s, op);
    var r := PlanOf(s, op).records[0];
    match op
    case WriteClaim(_, _, w) => ClaimApplies(s.db.core, r, w.agentKind, w.provenance);
    case WriteHyperedge(_, _, _, p, _, _, _) => HyperedgeApplies(s.db.core, r, p);
    case _ =>
  }

  lemma PruneApplies(s: Live, op: Op)
    requires Healthy(s.db, s.lastId) && op.Prune? && PlanOf(s, op).Write?
    ensures |PlanOf(s, op).records| == 1
    ensures ApplyRecord(s.db, PlanOf(s, op).records[0]).result.Err? <==> Trips(s, op)
  {
    PruneIsPlanned(s, op);
    TripsOnPrune(s, op);
    var drop := PruneChoice(s.db.episodic, s.db.notes, op.session, op.keep);
    NoteIsSound(s, op);
    PruneDropsTheFront(s.db.episodic, s.db.notes, op.session, op.keep);
    MarkerApplies(s.db, PruneObservations(op.ts, op.hash, op.session, drop));
  }

  lemma TripsOnPrune(s: Live, op: Op)
    requires op.Prune?
    ensures Trips(s, op) <==> op.hash in s.db.notes.markers || op.ts <= 0
  {
    assert !Sweep(op) && !Minting(op);
  }

  lemma MarkerApplies(db: Database, r: LogRecord)
    requires r.PruneObservations? && Novel(db, r) && Distinct(r.prunedIds)
    ensures ApplyRecord(db, r).result.Err? <==> r.markerId in db.notes.markers || r.ts <= 0
  {
    NovelNeverRepeats(db, r);
  }

  lemma RetireLineApplies(s: Live, op: Op)
    requires Healthy(s.db, s.lastId) && Grounded(s.db.core) && op.Retire? && PlanOf(s, op).Write?
    ensures |PlanOf(s, op).records| == 1
    ensures ApplyRecord(s.db, PlanOf(s, op).records[0]).result.Err? <==> Trips(s, op)
  {
    PlainLineIsSound(s, op);
    RetireApplies(s.db.core.claims, PlanOf(s, op).records[0]);
  }

  lemma DecayNamesClaims(s: Live, op: Op)
    requires Healthy(s.db, s.lastId) && (op.DecayContradicted? || op.DecayInferred?) && PlanOf(s, op).Write?
    ensures |PlanOf(s, op).records| == 1 && PlanOf(s, op).records[0].DecayConfidence?
    ensures var changes := PlanOf(s, op).records[0].changes;
            forall k :: 0 <= k < |changes| ==> changes[k].claimId in s.db.core.claims && Within(changes[k].confidence)
  {
  }

  lemma DecayLineApplies(s: Live, op: Op)
    requires Healthy(s.db, s.lastId) && (op.DecayContradicted? || op.DecayInferred?) && PlanOf(s, op).Write?
    ensures |PlanOf(s, op).records| == 1
    ensures ApplyRecord(s.db, PlanOf(s, op).records[0]).result.Err? <==> Trips(s, op)
  {
    DecayNamesClaims(s, op);
    ChangesRecordApplies(s.db, PlanOf(s, op).records[0]);
  }

  lemma ChangesRecordApplies(db: Database, r: LogRecord)
    requires r.DecayConfidence?
    requires forall k :: 0 <= k < |r.changes| ==>
               r.changes[k].claimId in db.core.claims && Within(r.changes[k].confidence)
    ensures ApplyRecord(db, r).result.Ok?
  {
    ChangesApply(db.core.claims, r.changes);
  }

  lemma UpdateLineApplies(s: Live, op: Op)
    requires Healthy(s.db, s.lastId) && (op.WriteObservation? || op.Reject? || op.Backfill?) && PlanOf(s, op).Write?
    ensures |PlanOf(s, op).records| == 1
    ensures ApplyRecord(s.db, PlanOf(s, op).records[0]).result.Err? <==> Trips(s, op)
  {
    PlainLineIsSound(s, op);
  }

  lemma PlainLineApplies(s: Live, op: Op)
    requires Healthy(s.db, s.lastId) && Grounded(s.db.core) && PlanOf(s, op).Write?
    requires op.WriteObservation? || op.Prune? || op.Retire? || op.Reject? || op.DecayContradicted?
          || op.DecayInferred? || op.Backfill?
    ensures |PlanOf(s, op).records| == 1
    ensures ApplyRecord(s.db, PlanOf(s, op).records[0]).result.Err? <==> Trips(s, op)
  {
    if op.Prune? { PruneApplies(s, op); }
    else if op.Retire? { RetireLineApplies(s, op); }
    else if op.DecayContradicted? || op.DecayInferred? { DecayLineApplies(s, op); }
    else { UpdateLineApplies(s, op); }
  }

  lemma TwoLines(db: Database, first: LogRecord, second: LogRecord)
    ensures ApplyAll(db, [first, second]).result.Err? <==>
              ApplyRecord(db, first).result.Err? || ApplyRecord(ApplyRecord(db, first).state, second).result.Err?
  {
    assert [first, second][1..] == [second];
    if ApplyRecord(db, first).result.Ok? { SingleLine(ApplyRecord(db, first).state, second); }
  }

  lemma PairApplies(db: Database, claim: LogRecord, promotion: LogRecord, kind: AgentKind, p: Provenance)
    requires Grounded(db.core) && claim.AddClaim? && claim.claimId !in db.core.claims
    requires claim.agentKind == kind.Name() && claim.provenance == Some(p.Name())
    requires promotion.PromoteCandidate? && promotion.claimId == claim.claimId
    requires promotion.candidateId in db.episodic.candidates
    requires db.episodic.candidates[promotion.candidateId].status == Pending
    ensures ApplyAll(db, [claim, promotion]).result.Err? <==>
              || !Within(claim.confidence) || !DecisionFits(promotion.decision, "promote")
              || Stale(db.core.entities, claim.subject, claim.ts) || Stale(db.core.entities, claim.object_, claim.ts)
  {
    ClaimApplies(db.core, claim, kind, p);
    TwoLines(db, claim, promotion);
    if ApplyRecord(db, claim).result.Ok? {
      ClaimIsThere(db, claim);
      PromotionNeedsItsClaim(ApplyRecord(db, claim).state, promotion);
    }
  }

  lemma PromotionNeedsItsClaim(db: Database, promotion: LogRecord)
    requires promotion.PromoteCandidate? && promotion.candidateId in db.episodic.candidates
    requires db.episodic.candidates[promotion.candidateId].status == Pending
    ensures ApplyRecord(db, promotion).result.Ok? <==>
              promotion.claimId in db.core.claims && DecisionFits(promotion.decision, "promote")
  {
  }

  lemma PromotionApplies(s: Live, op: Op)
    requires Healthy(s.db, s.lastId) && Grounded(s.db.core) && op.Promote? && PlanOf(s, op).Write?
    ensures ApplyAll(s.db, PlanOf(s, op).records).result.Err? <==> Trips(s, op)
  {
    PromotionIsPlanned(s, op);
    PlannedPromotionApplies(s, op);
    TripsOnPromotion(s, op);
  }

  lemma TripsOnPromotion(s: Live, op: Op)
    requires op.Promote?
    ensures Trips(s, op) <==> PromotionTrips(s, op)
  {
    assert !Sweep(op) && !Updating(op);
  }

  lemma PlannedPromotionApplies(s: Live, op: Op)
    requires Healthy(s.db, s.lastId) && Grounded(s.db.core) && op.Promote? && PlanPromotion(s, op).Write?
    ensures ApplyAll(s.db, PlanPromotion(s, op).records).result.Err? <==> PromotionTrips(s, op)
  {
    var records := PlanPromotion(s, op).records;
    var c := s.db.episodic.candidates[op.candidateId];
    assert CandidateSound(s.db.core.claims, c) && c.status == Pending;
    var p := if op.attribution.Some? then op.attribution.value.0 else Inferred;
    assert records == [records[0], records[1]];
    PairApplies(s.db, records[0], records[1], s.db.episodic.events[c.eventId].agentKind, p);
  }

  /** Whether the lines of a planned call apply. */
  lemma LinesApplyUnlessTripped(s: Live, op: Op)
    requires Healthy(s.db, s.lastId) && Grounded(s.db.core) && PlanOf(s, op).Write?
    ensures ApplyAll(s.db, PlanOf(s, op).records).result.Ok? <==> !Trips(s, op)
  {
    if op.Promote? {
      PromotionApplies(s, op);
    } else if op.MergeDuplicates? {
      MergePlanIsSound(s.db, s.lastId, op.ts);
    } else if op.SupersedeStale? {
      SupersedePlanIsSound(s.db, s.lastId, op.ts);
    } else {
      OneLineAppliesUnlessTripped(s, op);
    }
  }

  lemma OneLineAppliesUnlessTripped(s: Live, op: Op)
    requires Healthy(s.db, s.lastId) && Grounded(s.db.core) && PlanOf(s, op).Write?
    requires !op.Promote? && !op.MergeDuplicates? && !op.SupersedeStale?
    ensures ApplyAll(s.db, PlanOf(s, op).records).result.Ok? <==> !Trips(s, op)
  {
    var records := PlanOf(s, op).records;
    if op.WriteClaim? || op.WriteHyperedge? || op.WriteEvent? || op.Contradict? || op.Propose? || op.WriteChunk? {
      MintedLineApplies(s, op);
    } else {
      PlainLineApplies(s, op);
    }
    assert records == [records[0]];
    SingleLine(s.db, records[0]);
  }

  /** A call leaves its log ahead of the database exactly when it gets to append and trips one
      of the constraints its writer does not check. */
  lemma LogAheadExactly(s: Live, op: Op)
    requires Healthy(s.db, s.lastId) && Grounded(s.db.core)
    ensures Step(s, op).status == LogAhead <==> PlanOf(s, op).Write? && Trips(s, op)
  {
    if PlanOf(s, op).Write? { LinesApplyUnlessTripped(s, op); }
  }

  ghost predicate NothingTrips(s: Live, ops: seq<Op>)
    decreases |ops|
  {
    ops != [] ==>
      var t, op := Run(s, ops[..|ops| - 1]), ops[|ops| - 1];
      NothingTrips(s, ops[..|ops| - 1]) && !(PlanOf(t, op).Write? && Trips(t, op))
  }

  /** A run from a fresh store leaves no log ahead exactly when none of its calls trips. */
  lemma {:induction false} RunSucceedsExactly(s: Live, ops: seq<Op>)
    requires Fresh(s) && Grounded(s.db.core)
    ensures Succeeds(s, ops) <==> NothingTrips(s, ops)
    decreases |ops|
  {
    if ops != [] {
      var front := ops[..|ops| - 1];
      RunSucceedsExactly(s, front);
      RunStaysHealthy(s, front);
      RunStaysGrounded(s, front);
      LogAheadExactly(Run(s, front), ops[|ops| - 1]);
    }
  }

  // ----- inputs that leave the log ahead -----

  /** A chunk without an embedding, and an embedding client that answers with an empty vector. */
  lemma EmptyBackfillLeavesLogAhead(s: Live, ts: int, chunkId: int)
    requires Healthy(s.db, s.lastId) && Grounded(s.db.core)
    requires chunkId in s.db.core.chunks && s.db.core.chunks[chunkId].embedding.None?
    ensures Step(s, Backfill(ts, chunkId, [])).status == LogAhead
  {
    LogAheadExactly(s, Backfill(ts, chunkId, []));
  }

  /** A clock stepped back behind the creation of an entity the claim is about. */
  lemma ClockStepBackLeavesLogAhead(s: Live, ts: int, tick: nat, w: ClaimWrite)
    requires Healthy(s.db, s.lastId) && Grounded(s.db.core) && ClaimAllowed(s.db.core, w)
    requires w.subject in s.db.core.entities && 0 < ts < s.db.core.entities[w.subject].createdAt
    ensures Step(s, WriteClaim(ts, tick, w)).status == LogAhead
  {
    LogAheadExactly(s, WriteClaim(ts, tick, w));
  }

  /** A retirement dated before the claim was written. */
  lemma EarlyRetirementLeavesLogAhead(s: Live, ts: int, claimId: int, reason: string)
    requires Healthy(s.db, s.lastId) && Grounded(s.db.core) && !Blank(reason)
    requires claimId in s.db.core.claims && s.db.core.claims[claimId].status != Invalidated
    requires 0 < ts < s.db.core.claims[claimId].writeTs
    ensures Step(s, Retire(ts, claimId, reason)).status == LogAhead
  {
    LogAheadExactly(s, Retire(ts, claimId, reason));
  }

  /** Once the replacement claim is committed, contradict's own line always applies, short of a clock before 1970. */
  lemma ContradictionLineApplies(s: Live, ts: int, tick: nat, claimId: int, reason: string, w: ClaimWrite,
                                 laterTs: int, laterTick: nat)
    requires Healthy(s.db, s.lastId) && Grounded(s.db.core) && claimId in s.db.core.claims && !Blank(reason)
    requires Step(s, WriteClaim(ts, tick, w)).status == Committed
    ensures ContradictStep(s, ts, tick, claimId, reason, Some(w), laterTs, laterTick).status ==
            if laterTs > 0 then Committed else LogAhead
  {
    var t := Step(s, WriteClaim(ts, tick, w)).live;
    StepMovesForward(s, WriteClaim(ts, tick, w));
    StepStaysGrounded(s, WriteClaim(ts, tick, w));
    CommittedClaimIsNew(s, ts, tick, w);
    SecondHalfApplies(t, laterTs, laterTick, claimId, reason);
  }

  lemma SecondHalfApplies(t: Live, ts: int, tick: nat, claimId: int, reason: string)
    requires Healthy(t.db, t.lastId) && Grounded(t.db.core) && claimId in t.db.core.claims && !Blank(reason)
    requires t.lastId in t.db.core.claims && t.lastId != claimId
    ensures Step(t, Op.Contradict(ts, tick, claimId, reason, true)).status == if ts > 0 then Committed else LogAhead
  {
    var op := Op.Contradict(ts, tick, claimId, reason, true);
    LogAheadExactly(t, op);
    StepMovesForward(t, op);
    StatusOfPlan(t, op);
  }

  lemma StatusOfPlan(s: Live, op: Op)
    requires PlanOf(s, op).Write?
    ensures Step(s, op).status != Unchanged
  {
  }
}
