/** Theorems over every run of live writes: strict replay of the three logs rebuilds the
    database, nothing goes backwards, and a repeated line is a duplicate. */
module LiveRuns {
  import opened Prelude
  import opened Records
  import opened Projection
  import opened Consolidation
  import opened Compaction
  import opened Writers
  import opened Runs
  import opened Lifecycle

  // ----- what holds of the database throughout a live run -----

  /** Every minted id lies at or below the generator's last one. */
  ghost predicate IdsBounded(db: Database, last: int) {
    && (forall id :: id in db.core.claims ==> id <= last)
    && (forall id :: id in db.core.hyperedges ==> id <= last)
    && (forall id :: id in db.core.contradictions ==> id <= last)
    && (forall id :: id in db.core.chunks ==> id <= last)
    && (forall id :: id in db.episodic.events ==> id <= last)
    && (forall id :: id in db.episodic.candidates ==> id <= last)
  }

  /** The claim says what the candidate proposed, in the candidate's scope. */
  ghost predicate Fulfils(claims: Claims, claimId: int, c: CandidateRow) {
    && claimId in claims
    && claims[claimId].subject == c.subject && claims[claimId].predicate_ == c.predicate_
    && claims[claimId].object_ == c.object_ && claims[claimId].scope == c.scope
  }

  ghost predicate CandidateSound(claims: Claims, c: CandidateRow) {
    match c.status
    case Pending => c.promotedClaimId == None && c.rejectionReason == None
    case Promoted => c.promotedClaimId.Some? && c.rejectionReason == None && Fulfils(claims, c.promotedClaimId.value, c)
    case Rejected => c.promotedClaimId == None && c.rejectionReason.Some?
  }

  ghost predicate CandidatesSound(db: Database) {
    forall id :: id in db.episodic.candidates ==> CandidateSound(db.core.claims, db.episodic.candidates[id])
  }

  ghost predicate Healthy(db: Database, last: int) {
    IdsBounded(db, last) && CandidatesSound(db) && ConfidencesWithin(db.core.claims)
  }

  // ----- what holds of every line a live writer logs -----

  /** The row the line creates, or the transition it makes, is new. */
  ghost predicate Novel(db: Database, r: LogRecord) {
    match r
    case AddClaim(_, id, _, _, _, _, _, _, _, _, _) => id !in db.core.claims
    case AddHyperedge(_, id, _, _, _, _, _) => id !in db.core.hyperedges
    case RecordEvent(_, id, _, _, _, _, _, _, _) => id !in db.episodic.events
    case RecordObservation(_, id, _, _, _, _, _, _, _, _) => id !in db.notes.observations
    case PruneObservations(_, id, session, pruned) =>
      id in db.notes.markers ==> db.notes.markers[id].sessionId != session || db.notes.markers[id].prunedIds != pruned
    case RetireClaim(_, id, _) => id in db.core.claims ==> db.core.claims[id].status != Invalidated
    case AddContradiction(_, id, _, _, _) => id !in db.core.contradictions
    case ProposeCandidate(_, id, _, _, _, _, _) => id !in db.episodic.candidates
    case PromoteCandidate(_, id, _, _) =>
      id in db.episodic.candidates ==> db.episodic.candidates[id].status == Pending
    case RejectCandidate(_, id, _, _) =>
      id in db.episodic.candidates ==> db.episodic.candidates[id].status == Pending
    case AddVectorChunk(_, id, _, _, _, _) => id !in db.core.chunks
    case EmbedVectorChunk(_, id, _) => id in db.core.chunks ==> db.core.chunks[id].embedding == None
    case _ => true
  }

  /** newest_minted_id, where the line creates a row under it. */
  function MintedId(r: LogRecord): Option<int> {
    match r
    case AddClaim(_, id, _, _, _, _, _, _, _, _, _) => Some(id)
    case AddHyperedge(_, id, _, _, _, _, _) => Some(id)
    case RecordEvent(_, id, _, _, _, _, _, _, _) => Some(id)
    case AddContradiction(_, id, _, _, _) => Some(id)
    case ProposeCandidate(_, id, _, _, _, _, _) => Some(id)
    case AddVectorChunk(_, id, _, _, _, _) => Some(id)
    case _ => None
  }

  ghost predicate PromotionFits(db: Database, r: LogRecord) {
    r.PromoteCandidate? && r.candidateId in db.episodic.candidates ==>
      Fulfils(db.core.claims, r.claimId, db.episodic.candidates[r.candidateId])
  }

  ghost predicate SoundLine(db: Database, last: int, r: LogRecord) {
    && Novel(db, r) && Careful(db.core.claims, r) && PromotionFits(db, r)
    && (MintedId(r).Some? ==> MintedId(r).value <= last)
  }

  lemma NovelNeverRepeats(db: Database, r: LogRecord)
    requires Novel(db, r)
    ensures ApplyRecord(db, r).result != Ok(Duplicate)
  {
    if r.SupersedeClaims? { SupersedeKeepsKeys(db.core.claims, r.claimIds); }
    else if r.DecayConfidence? { DecayKeepsKeys(db.core.claims, r.changes); }
  }

  lemma {:induction false} DecayKeepsConfidences(claims: Claims, changes: seq<ConfidenceChange>)
    requires ConfidencesWithin(claims)
    ensures ConfidencesWithin(ApplyDecay(claims, changes).state)
    decreases |changes|
  {
    if changes != [] && changes[0].claimId in claims && Within(changes[0].confidence) {
      DecayKeepsConfidences(
        claims[changes[0].claimId := claims[changes[0].claimId].(confidence := changes[0].confidence)], changes[1..]);
    }
  }

  /** Confidence stays in [0, 1] through every record. */
  lemma ConfidenceStaysWithin(core: ClaimTables, r: LogRecord)
    requires SeriesOf(r) == ClaimLog && ApplyCore(core, r).result.Ok? && ConfidencesWithin(core.claims)
    ensures ConfidencesWithin(ApplyCore(core, r).state.claims)
  {
    if r.DecayConfidence? {
      DecayKeepsConfidences(core.claims, r.changes);
    } else if r.SupersedeClaims? {
      SupersedeNeedsItsIds(core.claims, r.claimIds);
      SupersedeIsPointwise(core.claims, r.claimIds);
    } else if r.AddClaim? && r.claimId !in core.claims {
      var kind := ParseAgentKind(r.agentKind).value;
      var o := InsertClaim(core, r, kind, StatedProvenance(r, kind).value);
    }
  }

  lemma CoreIdsStayBounded(core: ClaimTables, last: int, r: LogRecord)
    requires SeriesOf(r) == ClaimLog && ApplyCore(core, r).result.Ok?
    requires MintedId(r).Some? ==> MintedId(r).value <= last
    requires IdsBounded(Database(core, EventTables(map[], map[]), ObservationTables(map[], map[])), last)
    ensures var after := ApplyCore(core, r).state;
            IdsBounded(Database(after, EventTables(map[], map[]), ObservationTables(map[], map[])), last)
  {
    if r.DecayConfidence? {
      DecayKeepsKeys(core.claims, r.changes);
    } else if r.SupersedeClaims? {
      SupersedeKeepsKeys(core.claims, r.claimIds);
    } else if r.AddClaim? && r.claimId !in core.claims {
      var kind := ParseAgentKind(r.agentKind).value;
      var o := InsertClaim(core, r, kind, StatedProvenance(r, kind).value);
    } else if r.AddHyperedge? && r.hyperedgeId !in core.hyperedges {
      var o := InsertHyperedge(core, r, ParseProvenance(r.provenanceName).value);
    }
  }

  lemma SoundLineKeepsHealth(db: Database, last: int, r: LogRecord)
    requires Healthy(db, last) && SoundLine(db, last, r) && ApplyRecord(db, r).result.Ok?
    ensures Healthy(ApplyRecord(db, r).state, last) && Forward(db, ApplyRecord(db, r).state)
  {
    RecordMovesForward(db, r);
    var after := ApplyRecord(db, r).state;
    if SeriesOf(r) == ClaimLog {
      ConfidenceStaysWithin(db.core, r);
      CoreIdsStayBounded(db.core, last, r);
      forall id | id in db.episodic.candidates ensures CandidateSound(after.core.claims, db.episodic.candidates[id]) {
        var c := db.episodic.candidates[id];
        assert CandidateSound(db.core.claims, c);
        if c.status == Promoted {
          assert ClaimForward(db.core.claims[c.promotedClaimId.value], after.core.claims[c.promotedClaimId.value]);
        }
      }
    }
  }

  /** Each line is sound where it is applied. */
  ghost predicate SoundLines(db: Database, last: int, records: seq<LogRecord>)
    decreases |records|
  {
    records != [] ==>
      && SoundLine(db, last, records[0])
      && (ApplyRecord(db, records[0]).result.Ok? ==> SoundLines(ApplyRecord(db, records[0]).state, last, records[1..]))
  }

  lemma {:induction false} SoundLinesKeepHealth(db: Database, last: int, records: seq<LogRecord>)
    requires Healthy(db, last) && SoundLines(db, last, records)
    ensures ApplyAll(db, records).result != Ok(Duplicate)
    ensures ApplyAll(db, records).result.Ok? ==>
              Healthy(ApplyAll(db, records).state, last) && Forward(db, ApplyAll(db, records).state)
    decreases |records|
  {
    if records != [] && ApplyRecord(db, records[0]).result.Ok? {
      SoundLineKeepsHealth(db, last, records[0]);
      SoundLinesKeepHealth(ApplyRecord(db, records[0]).state, last, records[1..]);
      FirstThenRest(db, last, records);
    }
  }

  lemma FirstThenRest(db: Database, last: int, records: seq<LogRecord>)
    requires records != [] && SoundLine(db, last, records[0]) && ApplyRecord(db, records[0]).result.Ok?
    ensures var next := ApplyRecord(db, records[0]).state;
            && ApplyAll(db, records) == ApplyAll(next, records[1..])
            && (Forward(db, next) && Forward(next, ApplyAll(next, records[1..]).state) ==>
                  Forward(db, ApplyAll(next, records[1..]).state))
  {
    NovelNeverRepeats(db, records[0]);
    var next := ApplyRecord(db, records[0]).state;
    var end := ApplyAll(next, records[1..]).state;
    if Forward(db, next) && Forward(next, end) { ForwardCompose(db, next, end); }
  }

  // ----- every plan is sound -----

  lemma OneLine(db: Database, last: int, r: LogRecord)
    requires SoundLine(db, last, r)
    ensures SoundLines(db, last, [r])
  {
  }

  lemma LineThenLines(db: Database, last: int, r: LogRecord, next: Database, rest: seq<LogRecord>)
    requires SoundLine(db, last, r) && ApplyRecord(db, r) == Outcome(next, Ok(Applied))
    requires SoundLines(next, last, rest)
    ensures SoundLines(db, last, [r] + rest) && ApplyAll(db, [r] + rest) == ApplyAll(next, rest)
  {
    assert ([r] + rest)[1..] == rest;
  }

  lemma MergeLineIsSound(db: Database, last: int, start: Claims, chosen: set<int>, id: int, ts: int)
    requires chosen <= Survivors(start) && db.core.claims == Merged(start, chosen)
    requires id in Survivors(start) && id !in chosen
    ensures SoundLine(db, last, MergeRecord(ts, start, id))
    ensures ApplyRecord(db, MergeRecord(ts, start, id))
         == Outcome(db.(core := db.core.(claims := Merged(start, chosen + {id}))), Ok(Applied))
  {
    MergeStep(start, chosen, id, ts);
    MergedRefsHoldTheGroup(start, id, id);
    assert db.core.claims[id] == start[id];
  }

  ghost function WithClaims(db: Database, claims: Claims): Database { db.(core := db.core.(claims := claims)) }

  lemma {:induction false} MergesAreSound(
    db: Database, last: int, start: Claims, chosen: set<int>, ids: seq<int>, all: set<int>, ts: int)
    requires chosen <= Survivors(start) && db.core.claims == Merged(start, chosen)
    requires AllIn(ids, start) && Distinct(ids)
    requires forall k :: 0 <= k < |ids| ==> ids[k] in Survivors(start) && ids[k] !in chosen
    requires all == chosen + set id | id in ids
    ensures SoundLines(db, last, MergeRecords(ts, start, ids))
    ensures ApplyAll(db, MergeRecords(ts, start, ids)) == Outcome(WithClaims(db, Merged(start, all)), Ok(Applied))
    decreases |ids|
  {
    if ids == [] {
      assert all == chosen;
    } else {
      MergeLineIsSound(db, last, start, chosen, ids[0], ts);
      var next := WithClaims(db, Merged(start, chosen + {ids[0]}));
      MergeTail(start, chosen, ids, all);
      MergesAreSound(next, last, start, chosen + {ids[0]}, ids[1..], all, ts);
      LineThenLines(db, last, MergeRecord(ts, start, ids[0]), next, MergeRecords(ts, start, ids[1..]));
    }
  }

  lemma MergeTail(start: Claims, chosen: set<int>, ids: seq<int>, all: set<int>)
    requires ids != [] && AllIn(ids, start) && Distinct(ids) && all == chosen + set id | id in ids
    requires forall k :: 0 <= k < |ids| ==> ids[k] in Survivors(start) && ids[k] !in chosen
    ensures AllIn(ids[1..], start) && Distinct(ids[1..])
    ensures forall k :: 0 <= k < |ids[1..]| ==> ids[1..][k] in Survivors(start) && ids[1..][k] !in chosen + {ids[0]}
    ensures all == chosen + {ids[0]} + set id | id in ids[1..]
  {
    assert forall id :: id in ids <==> id == ids[0] || id in ids[1..];
  }

  lemma SupersedeLine(db: Database, last: int, ids: set<int>, ts: int)
    requires ids <= ActiveIds(db.core.claims)
    ensures SoundLines(db, last, SupersedeRecords(ts, ids))
    ensures ApplyAll(db, SupersedeRecords(ts, ids))
         == Outcome(WithClaims(db, WithSuperseded(db.core.claims, ids)), Ok(Applied))
  {
    if ids == {} {
      assert WithSuperseded(db.core.claims, ids) == db.core.claims;
      assert SupersedeRecords(ts, ids) == [];
    } else {
      var r := SupersedeClaims(ts, Ascending(ids));
      assert SupersedeRecords(ts, ids) == [r];
      SupersedeApplies(db, ids, ts);
      OneLine(db, last, r);
      LineApplied(db, r);
    }
  }

  lemma SupersedeApplies(db: Database, ids: set<int>, ts: int)
    requires ids <= ActiveIds(db.core.claims)
    ensures ApplyRecord(db, SupersedeClaims(ts, Ascending(ids)))
         == Outcome(WithClaims(db, WithSuperseded(db.core.claims, ids)), Ok(Applied))
  {
    SupersedeIsPointwise(db.core.claims, Ascending(ids));
    assert (set id | id in Ascending(ids)) == ids;
    assert ApplySupersede(db.core.claims, Ascending(ids)) == Outcome(WithSuperseded(db.core.claims, ids), Ok(Applied));
    OnlyClaimsChange(db, SupersedeClaims(ts, Ascending(ids)), WithSuperseded(db.core.claims, ids));
  }

  lemma OnlyClaimsChange(db: Database, r: LogRecord, claims: Claims)
    requires r.SupersedeClaims? && ApplySupersede(db.core.claims, r.claimIds) == Outcome(claims, Ok(Applied))
    ensures ApplyRecord(db, r) == Outcome(WithClaims(db, claims), Ok(Applied))
  {
  }

  lemma LineApplied(db: Database, r: LogRecord)
    requires ApplyRecord(db, r).result == Ok(Applied)
    ensures ApplyAll(db, [r]) == ApplyRecord(db, r)
  {
    assert [r][1..] == [];
  }

  lemma {:induction false} LinesInTwoParts(db: Database, last: int, a: seq<LogRecord>, b: seq<LogRecord>)
    requires SoundLines(db, last, a) && ApplyAll(db, a).result == Ok(Applied)
    requires SoundLines(ApplyAll(db, a).state, last, b)
    ensures SoundLines(db, last, a + b)
    ensures ApplyAll(db, a + b) == ApplyAll(ApplyAll(db, a).state, b)
    decreases |a|
  {
    if a == [] {
      assert a + b == b;
    } else {
      assert (a + b)[1..] == a[1..] + b;
      LinesInTwoParts(ApplyRecord(db, a[0]).state, last, a[1..], b);
    }
  }

  lemma SupersedePlanIsSound(db: Database, last: int, ts: int)
    ensures var single := DuplicatePass(db.core.claims);
            var records := SupersedeRecords(ts, DuplicateIds(db.core.claims))
                         + SupersedeRecords(ts, ConflictIds(db.core.vocabulary, single));
            && SoundLines(db, last, records)
            && ApplyAll(db, records)
               == Outcome(WithClaims(db, ConflictPass(db.core.vocabulary, single)), Ok(Applied))
  {
    var single := DuplicatePass(db.core.claims);
    SupersedeLine(db, last, DuplicateIds(db.core.claims), ts);
    var next := WithClaims(db, single);
    SupersedeLine(next, last, ConflictIds(db.core.vocabulary, single), ts);
    LinesInTwoParts(db, last, SupersedeRecords(ts, DuplicateIds(db.core.claims)),
                    SupersedeRecords(ts, ConflictIds(db.core.vocabulary, single)));
  }

  lemma PromotionIsSound(s: Live, op: Op)
    requires Healthy(s.db, s.lastId) && op.Promote? && PlanOf(s, op).Write?
    ensures SoundLines(s.db, PlanOf(s, op).lastId, PlanOf(s, op).records)
  {
    var records := PlanPromotion(s, op).records;
    var c := s.db.episodic.candidates[op.candidateId];
    assert CandidateSound(s.db.core.claims, c) && c.status == Pending;
    assert records == [records[0], records[1]];
    PairIsSound(s.db, Mint(s.lastId, op.tick), c, records[0], records[1]);
  }

  lemma PairIsSound(db: Database, id: int, c: CandidateRow, claim: LogRecord, promotion: LogRecord)
    requires id !in db.core.claims && claim.AddClaim? && claim.claimId == id
    requires claim.subject == c.subject && claim.predicate_ == c.predicate_ && claim.object_ == c.object_
             && claim.scope == c.scope
    requires promotion.PromoteCandidate? && promotion.claimId == id && c.status == Pending
    requires promotion.candidateId in db.episodic.candidates && db.episodic.candidates[promotion.candidateId] == c
    ensures SoundLines(db, id, [claim, promotion])
  {
    if ApplyRecord(db, claim).result.Ok? {
      var next := ApplyRecord(db, claim).state;
      ClaimIsThere(db, claim);
      PromotionIsSoundNext(next, id, c, promotion);
      OneLine(next, id, promotion);
    }
    assert [claim, promotion][1..] == [promotion];
  }

  lemma ClaimIsThere(db: Database, claim: LogRecord)
    requires claim.AddClaim? && claim.claimId !in db.core.claims && ApplyRecord(db, claim).result.Ok?
    ensures var next := ApplyRecord(db, claim).state;
            && next.episodic == db.episodic && claim.claimId in next.core.claims
            && var row := next.core.claims[claim.claimId];
               row.subject == claim.subject && row.predicate_ == claim.predicate_ && row.object_ == claim.object_
               && row.scope == claim.scope
  {
    var kind := ParseAgentKind(claim.agentKind).value;
    var inserted := InsertClaim(db.core, claim, kind, StatedProvenance(claim, kind).value);
  }

  lemma PromotionIsSoundNext(db: Database, id: int, c: CandidateRow, promotion: LogRecord)
    requires promotion.PromoteCandidate? && promotion.claimId == id && c.status == Pending
             && Fulfils(db.core.claims, id, c)
    requires promotion.candidateId in db.episodic.candidates && db.episodic.candidates[promotion.candidateId] == c
    ensures SoundLine(db, id, promotion)
  {
  }

  lemma PruneIsNovel(db: Database, session: string, keep: nat, id: string, ts: int)
    requires var drop := PruneChoice(db.episodic, db.notes, session, keep); drop != []
    ensures Novel(db, PruneObservations(ts, id, session, PruneChoice(db.episodic, db.notes, session, keep)))
  {
    var drop := PruneChoice(db.episodic, db.notes, session, keep);
    PruneDropsTheFront(db.episodic, db.notes, session, keep);
    assert drop[0] in drop && drop[0] !in PrunedIds(db.notes, session);
    assert id in db.notes.markers && db.notes.markers[id].sessionId == session ==>
      drop[0] !in db.notes.markers[id].prunedIds;
  }

  /** Calls that log one line under a minted id. */
  lemma MintedLineIsSound(s: Live, op: Op)
    requires Healthy(s.db, s.lastId) && PlanOf(s, op).Write?
    requires op.WriteClaim? || op.WriteHyperedge? || op.WriteEvent? || op.Contradict? || op.Propose? || op.WriteChunk?
    ensures PlanOf(s, op).lastId > s.lastId && |PlanOf(s, op).records| == 1
    ensures SoundLine(s.db, PlanOf(s, op).lastId, PlanOf(s, op).records[0])
  {
    var id := Mint(s.lastId, op.tick);
    assert id !in s.db.core.claims && id !in s.db.core.hyperedges && id !in s.db.core.contradictions
        && id !in s.db.core.chunks && id !in s.db.episodic.events && id !in s.db.episodic.candidates;
  }

  /** Calls that log one line about existing rows or under a hash. */
  lemma PlainLineIsSound(s: Live, op: Op)
    requires Healthy(s.db, s.lastId) && PlanOf(s, op).Write?
    requires op.WriteObservation? || op.Prune? || op.Retire? || op.Reject? || op.DecayContradicted?
          || op.DecayInferred? || op.Backfill?
    ensures PlanOf(s, op).lastId == s.lastId && |PlanOf(s, op).records| == 1
    ensures SoundLine(s.db, s.lastId, PlanOf(s, op).records[0])
  {
    if op.WriteObservation? || op.Prune? { NoteIsSound(s, op); }
    else if op.DecayContradicted? || op.DecayInferred? { DecayIsSound(s, op); }
  }

  lemma NoteIsSound(s: Live, op: Op)
    requires Healthy(s.db, s.lastId) && PlanOf(s, op).Write? && (op.WriteObservation? || op.Prune?)
    ensures PlanOf(s, op).lastId == s.lastId && |PlanOf(s, op).records| == 1
    ensures SoundLine(s.db, s.lastId, PlanOf(s, op).records[0])
  {
    if op.Prune? { PruneIsNovel(s.db, op.session, op.keep, op.hash, op.ts); }
  }

  lemma DecayIsSound(s: Live, op: Op)
    requires Healthy(s.db, s.lastId) && PlanOf(s, op).Write? && (op.DecayContradicted? || op.DecayInferred?)
    ensures PlanOf(s, op).lastId == s.lastId && |PlanOf(s, op).records| == 1
    ensures SoundLine(s.db, s.lastId, PlanOf(s, op).records[0])
  {
  }

  lemma MergePlanIsSound(db: Database, last: int, ts: int)
    ensures var records := MergeRecords(ts, db.core.claims, Ascending(Survivors(db.core.claims)));
            && SoundLines(db, last, records)
            && ApplyAll(db, records) == Outcome(WithClaims(db, MergePass(db.core.claims)), Ok(Applied))
  {
    var claims := db.core.claims;
    NothingMerged(claims);
    MergesAreSound(db, last, claims, {}, Ascending(Survivors(claims)), Survivors(claims), ts);
  }

  lemma NothingMerged(claims: Claims)
    ensures Merged(claims, {}) == claims
  {
  }

  lemma StalePlanIsSound(s: Live, op: Op)
    requires op.SupersedeStale? && PlanOf(s, op).Write?
    ensures PlanOf(s, op).lastId == s.lastId && SoundLines(s.db, s.lastId, PlanOf(s, op).records)
  {
    SupersedePlanIsSound(s.db, s.lastId, op.ts);
  }

  lemma PlanIsSound(s: Live, op: Op)
    requires Healthy(s.db, s.lastId) && PlanOf(s, op).Write?
    ensures PlanOf(s, op).lastId >= s.lastId
    ensures SoundLines(s.db, PlanOf(s, op).lastId, PlanOf(s, op).records)
  {
    match op
    case Promote(_, _, _, _, _) => PromotionIsSound(s, op);
    case MergeDuplicates(ts) => MergePlanIsSound(s.db, s.lastId, ts);
    case SupersedeStale(_) => StalePlanIsSound(s, op);
    case _ => OneLinePlanIsSound(s, op);
  }

  lemma OneLinePlanIsSound(s: Live, op: Op)
    requires Healthy(s.db, s.lastId) && PlanOf(s, op).Write?
    requires !op.Promote? && !op.MergeDuplicates? && !op.SupersedeStale?
    ensures PlanOf(s, op).lastId >= s.lastId && |PlanOf(s, op).records| == 1
    ensures SoundLines(s.db, PlanOf(s, op).lastId, PlanOf(s, op).records)
  {
    if op.WriteClaim? || op.WriteHyperedge? || op.WriteEvent? || op.Contradict? || op.Propose? || op.WriteChunk? {
      MintedLineIsSound(s, op);
    } else {
      PlainLineIsSound(s, op);
    }
    var records := PlanOf(s, op).records;
    assert records == [records[0]];
    OneLine(s.db, PlanOf(s, op).lastId, records[0]);
  }
}
