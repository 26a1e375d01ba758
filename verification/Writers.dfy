/** Live writes (crates/aver-core/src/claims.rs, hyperedges.rs, candidates.rs, episodic.rs,
    vectors.rs, ids.rs) as steps of a state: the projected database, the id generator and
    the three logs. Each call plans its records, appends them, then applies them in one
    transaction; when a record fails to apply the database rolls back but the lines stay. */
module Writers {
  import opened Prelude
  import opened Records
  import opened Ontology
  import opened Projection
  import opened Consolidation
  import opened Compaction

  datatype Live = Live(
    db: Database, lastId: int,
    log: seq<LogRecord>, events: seq<LogRecord>, observations: seq<LogRecord>)

  datatype ClaimWrite = ClaimWrite(
    subject: string, predicate_: string, object_: string, source: string, agentId: string,
    agentKind: AgentKind, provenance: Provenance, confidence: real, scope: string)

  /** One writer call. `ts` is the clock; `tick` is the id the clock and the random bits
      propose to the generator. A contradiction with `replaced` is the second half of
      contradict: it names the claim committed just before it, and means nothing elsewhere. */
  datatype Op =
    | WriteClaim(ts: int, tick: nat, write: ClaimWrite)
    | WriteHyperedge(ts: int, tick: nat, predicate_: string, provenance: Provenance, confidence: real,
                     sourceRefs: seq<string>, participants: seq<Participant>)
    | WriteEvent(ts: int, tick: nat, session: string, kind: string, payload: string, source: string,
                 agentId: string, agentKind: AgentKind, scope: string)
    | WriteObservation(ts: int, hash: string, session: string, content: string, relevance: string,
                       eventIds: seq<int>, derivation: string, scope: string)
    | Prune(ts: int, hash: string, session: string, keep: nat)
    | Retire(ts: int, claimId: int, reason: string)
    | Contradict(ts: int, tick: nat, claimId: int, reason: string, replaced: bool)
    | Propose(ts: int, tick: nat, eventId: int, subject: string, predicate_: string, object_: string, scope: string)
    | Promote(ts: int, tick: nat, candidateId: int, attribution: Option<(Provenance, real)>, decision: Option<Decision>)
    | Reject(ts: int, candidateId: int, reason: string, decision: Option<Decision>)
    | MergeDuplicates(ts: int)
    | DecayContradicted(ts: int)
    | DecayInferred(ts: int, factors: map<int, real>)
    | SupersedeStale(ts: int)
    | WriteChunk(ts: int, tick: nat, claimId: int, text: string, model: string, embedding: Option<seq<real>>)
    | Backfill(ts: int, chunkId: int, vector: seq<real>)

  /** Refused calls and calls with nothing to do append no line. */
  datatype Plan = Refuse | Nothing | Write(lastId: int, records: seq<LogRecord>)

  /** LogAhead: lines were appended but applying them failed. Repeated: a line applied as a duplicate. */
  datatype Status = Unchanged | Committed | LogAhead | Repeated

  datatype Stepped = Stepped(live: Live, status: Status)

  // ----- validation -----

  predicate ScopeChar(c: char) {
    'a' <= c <= 'z' || 'A' <= c <= 'Z' || '0' <= c <= '9' || c == '_' || c == '-' || c == '/'
  }

  predicate ValidScope(scope: string) {
    scope != "" && forall i | 0 <= i < |scope| :: ScopeChar(scope[i])
  }

  predicate ValidAgentId(id: string) {
    id != "" && forall i | 0 <= i < |id| :: ScopeChar(id[i]) && id[i] != '/'
  }

  /** validate_ontology: only user assertions may use an unknown predicate. */
  predicate OntologyAllows(core: ClaimTables, predicate_: string, provenance: Provenance) {
    || IdOf(core.vocabulary.rows, predicate_).Some? || predicate_ in core.vocabulary.aliases
    || provenance == UserAsserted
  }

  predicate ClaimAllowed(core: ClaimTables, w: ClaimWrite) {
    && !Blank(w.subject) && !Blank(w.predicate_) && !Blank(w.object_) && !Blank(w.source)
    && ValidScope(w.scope) && Within(w.confidence) && ValidAgentId(w.agentId)
    && OntologyAllows(core, w.predicate_, w.provenance)
  }

  predicate HyperedgeAllowed(core: ClaimTables, op: Op)
    requires op.WriteHyperedge?
  {
    && !Blank(op.predicate_) && op.sourceRefs != [] && op.participants != [] && Within(op.confidence)
    && (forall i | 0 <= i < |op.sourceRefs| :: !Blank(op.sourceRefs[i]))
    && (forall i | 0 <= i < |op.participants| ::
          !Blank(op.participants[i].role) && !Blank(op.participants[i].entity))
    && OntologyAllows(core, op.predicate_, op.provenance)
  }

  /** Every cited event exists and belongs to the session. */
  predicate Cites(t: EventTables, session: string, eventIds: seq<int>) {
    eventIds != [] && forall i | 0 <= i < |eventIds| ::
      eventIds[i] in t.events && t.events[eventIds[i]].sessionId == session
  }

  /** mint: the proposed id, or one past the last when the clock has not moved on. */
  function Mint(last: int, tick: nat): (id: int)
    ensures id > last && id >= tick
  {
    if tick > last then tick else last + 1
  }

  function ClaimRecord(ts: int, id: int, w: ClaimWrite): LogRecord {
    AddClaim(ts, id, w.subject, w.predicate_, w.object_, w.source, w.agentId, w.agentKind.Name(),
             w.confidence, Some(w.provenance.Name()), w.scope)
  }

  // ----- planning -----

  function Digits(n: int): string
    decreases if n < 0 then 1 - n else n
  {
    if n < 0 then "-" + Digits(-n)
    else if n < 10 then ["0123456789"[n]]
    else Digits(n / 10) + ["0123456789"[n % 10]]
  }

  function EventSource(eventId: int): string { "event:" + Digits(eventId) }

  ghost function PlanPromotion(s: Live, op: Op): Plan
    requires op.Promote?
  {
    if op.candidateId !in s.db.episodic.candidates then Refuse
    else
      var c := s.db.episodic.candidates[op.candidateId];
      if c.status == Rejected then Refuse
      else if c.promotedClaimId.Some? then Nothing
      else if c.eventId !in s.db.episodic.events then Refuse
      else
        var event := s.db.episodic.events[c.eventId];
        var (provenance, confidence) := if op.attribution.Some? then op.attribution.value else (Inferred, 0.45);
        if !OntologyAllows(s.db.core, c.predicate_, provenance) then Refuse
        else
          var id := Mint(s.lastId, op.tick);
          Write(id, [PromotedClaim(op.ts, id, c, event, provenance, confidence),
                     PromoteCandidate(op.ts, op.candidateId, id, op.decision)])
  }

  /** The claim line of a promotion: what the candidate proposed, in the name of its event's agent. */
  function PromotedClaim(ts: int, id: int, c: CandidateRow, event: EventRow, provenance: Provenance,
                         confidence: real): LogRecord {
    AddClaim(ts, id, c.subject, c.predicate_, c.object_, EventSource(c.eventId), event.agentId, event.agentKind.Name(),
             confidence, Some(provenance.Name()), c.scope)
  }

  ghost function PlanRejection(s: Live, op: Op): Plan
    requires op.Reject?
  {
    if op.candidateId !in s.db.episodic.candidates || Blank(op.reason) then Refuse
    else
      var c := s.db.episodic.candidates[op.candidateId];
      match c.status
      case Promoted => Refuse
      case Rejected => if c.rejectionReason == Some(op.reason) then Nothing else Refuse
      case Pending => Write(s.lastId, [RejectCandidate(op.ts, op.candidateId, op.reason, op.decision)])
  }

  ghost function PlanObservation(s: Live, op: Op): Plan
    requires op.WriteObservation?
  {
    var t := s.db.episodic;
    if Blank(op.session) || Blank(op.content) || Blank(op.derivation) || !ValidScope(op.scope)
       || !KnownRelevance(op.relevance) || !Cites(t, op.session, op.eventIds) then Refuse
    else if op.hash in s.db.notes.observations then
      var row := s.db.notes.observations[op.hash];
      if row.sessionId == op.session && row.content == op.content && row.sourceEventIds == op.eventIds
      then Nothing else Refuse
    else
      var first := t.events[op.eventIds[0]];
      Write(s.lastId, [RecordObservation(op.ts, op.hash, op.session, op.content, op.relevance, op.eventIds,
                                         first.agentId, first.agentKind.Name(), op.derivation, op.scope)])
  }

  function MergeRecords(ts: int, claims: Claims, ids: seq<int>): seq<LogRecord>
    requires AllIn(ids, claims)
    decreases |ids|
  {
    if ids == [] then []
    else
      assert forall k :: 0 < k < |ids| ==> ids[k] == ids[1..][k - 1];
      [MergeRecord(ts, claims, ids[0])] + MergeRecords(ts, claims, ids[1..])
  }

  function Ascending(ids: set<int>): (r: seq<int>)
    ensures StrictlySorted(IntLe, r) && |r| == |ids|
    ensures forall k :: 0 <= k < |r| ==> r[k] in ids
    ensures (set id | id in r) == ids
  {
    var r := SortSet(IntLe, ids);
    assert forall k :: 0 <= k < |r| ==> r[k] in r;
    r
  }

  /** supersede_claim_ids logs nothing for an empty list. */
  function SupersedeRecords(ts: int, ids: set<int>): seq<LogRecord> {
    if ids == {} then [] else [SupersedeClaims(ts, Ascending(ids))]
  }

  /** ACTIVE inferred claims; the elapsed-time factor of each lies in [0, 1]. */
  function InferredChanges(claims: Claims, factors: map<int, real>, ids: seq<int>): (changes: seq<ConfidenceChange>)
    requires AllIn(ids, claims)
    ensures |changes| == |ids|
    ensures forall k :: 0 <= k < |ids| ==> changes[k].claimId == ids[k]
    ensures forall k :: 0 <= k < |ids| ==>
              (Within(claims[ids[k]].confidence) ==> 0.0 <= changes[k].confidence <= claims[ids[k]].confidence)
  {
    seq(|ids|, k requires 0 <= k < |ids| && ids[k] in claims =>
      ConfidenceChange(ids[k], Damped(claims[ids[k]].confidence, Factor(factors, ids[k]))))
  }

  function Damped(c: real, factor: real): (d: real)
    requires 0.0 <= factor <= 1.0
    ensures 0.0 <= c ==> 0.0 <= d <= c
  {
    var d := c * factor;
    assert 0.0 <= c ==> 0.0 <= c * factor && c * (1.0 - factor) >= 0.0;
    d
  }

  function Factor(factors: map<int, real>, id: int): (f: real)
    ensures 0.0 <= f <= 1.0
  {
    if id in factors && 0.0 <= factors[id] <= 1.0 then factors[id] else 1.0
  }

  ghost function PlanStale(s: Live, ts: int): Plan {
    var single := DuplicatePass(s.db.core.claims);
    var records := SupersedeRecords(ts, DuplicateIds(s.db.core.claims))
                 + SupersedeRecords(ts, ConflictIds(s.db.core.vocabulary, single));
    if records == [] then Nothing else Write(s.lastId, records)
  }

  ghost function PlanClaim(s: Live, op: Op): Plan
    requires op.WriteClaim?
  {
    if !ClaimAllowed(s.db.core, op.write) then Refuse
    else
      var id := Mint(s.lastId, op.tick);
      Write(id, [ClaimRecord(op.ts, id, op.write)])
  }

  ghost function PlanHyperedge(s: Live, op: Op): Plan
    requires op.WriteHyperedge?
  {
    if !HyperedgeAllowed(s.db.core, op) then Refuse
    else
      var id := Mint(s.lastId, op.tick);
      Write(id, [AddHyperedge(op.ts, id, op.predicate_, op.provenance.Name(), op.confidence, op.sourceRefs,
                              op.participants)])
  }

  ghost function PlanEvent(s: Live, op: Op): Plan
    requires op.WriteEvent?
  {
    if Blank(op.session) || Blank(op.kind) || Blank(op.source) || !ValidAgentId(op.agentId) || !ValidScope(op.scope)
    then Refuse
    else
      var id := Mint(s.lastId, op.tick);
      Write(id, [RecordEvent(op.ts, id, op.session, op.kind, op.payload, op.source, op.agentId, op.agentKind.Name(),
                             op.scope)])
  }

  ghost function PlanPrune(s: Live, op: Op): Plan
    requires op.Prune?
  {
    if Blank(op.session) then Refuse
    else
      var drop := PruneChoice(s.db.episodic, s.db.notes, op.session, op.keep);
      if drop == [] then Nothing else Write(s.lastId, [PruneObservations(op.ts, op.hash, op.session, drop)])
  }

  ghost function PlanRetirement(s: Live, op: Op): Plan
    requires op.Retire?
  {
    var claims := s.db.core.claims;
    if Blank(op.reason) || op.claimId !in claims || claims[op.claimId].status == Invalidated then Refuse
    else Write(s.lastId, [RetireClaim(op.ts, op.claimId, op.reason)])
  }

  ghost function PlanContradiction(s: Live, op: Op): Plan
    requires op.Contradict?
  {
    var claims := s.db.core.claims;
    if Blank(op.reason) || op.claimId !in claims then Refuse
    else if op.replaced && (s.lastId !in claims || s.lastId == op.claimId) then Refuse
    else
      var id := Mint(s.lastId, op.tick);
      Write(id, [AddContradiction(op.ts, id, op.claimId, op.reason, if op.replaced then Some(s.lastId) else None)])
  }

  ghost function PlanProposal(s: Live, op: Op): Plan
    requires op.Propose?
  {
    if op.eventId !in s.db.episodic.events || Blank(op.subject) || Blank(op.predicate_) || Blank(op.object_)
       || !ValidScope(op.scope)
    then Refuse
    else
      var id := Mint(s.lastId, op.tick);
      Write(id, [ProposeCandidate(op.ts, id, op.eventId, op.subject, op.predicate_, op.object_, op.scope)])
  }

  ghost function PlanMerge(s: Live, ts: int): Plan {
    var claims := s.db.core.claims;
    if Survivors(claims) == {} then Nothing
    else Write(s.lastId, MergeRecords(ts, claims, Ascending(Survivors(claims))))
  }

  ghost function PlanDecay(s: Live, ts: int): Plan {
    var claims := s.db.core.claims;
    var ids := Ascending(DecayTargets(claims, ContradictedIds(s.db.core.contradictions)));
    if ids == [] then Nothing else Write(s.lastId, [DecayConfidence(ts, DecayChanges(claims, ids))])
  }

  ghost function PlanInferredDecay(s: Live, ts: int, factors: map<int, real>): Plan {
    var claims := s.db.core.claims;
    var ids := Ascending(set id | id in claims && claims[id].status == Active && claims[id].provenance == Inferred);
    if ids == [] then Nothing else Write(s.lastId, [DecayConfidence(ts, InferredChanges(claims, factors, ids))])
  }

  ghost function PlanChunk(s: Live, op: Op): Plan
    requires op.WriteChunk?
  {
    if op.claimId !in s.db.core.claims || Blank(op.text) || Blank(op.model) || op.embedding == Some([]) then Refuse
    else
      var id := Mint(s.lastId, op.tick);
      Write(id, [AddVectorChunk(op.ts, id, op.claimId, op.text, op.model, op.embedding)])
  }

  ghost function PlanBackfill(s: Live, op: Op): Plan
    requires op.Backfill?
  {
    var chunks := s.db.core.chunks;
    if op.chunkId !in chunks || chunks[op.chunkId].embedding.Some? then Nothing
    else Write(s.lastId, [EmbedVectorChunk(op.ts, op.chunkId, op.vector)])
  }

  ghost function PlanOf(s: Live, op: Op): Plan {
    match op
    case WriteClaim(_, _, _) => PlanClaim(s, op)
    case WriteHyperedge(_, _, _, _, _, _, _) => PlanHyperedge(s, op)
    case WriteEvent(_, _, _, _, _, _, _, _, _) => PlanEvent(s, op)
    case WriteObservation(_, _, _, _, _, _, _, _) => PlanObservation(s, op)
    case Prune(_, _, _, _) => PlanPrune(s, op)
    case Retire(_, _, _) => PlanRetirement(s, op)
    case Contradict(_, _, _, _, _) => PlanContradiction(s, op)
    case Propose(_, _, _, _, _, _, _) => PlanProposal(s, op)
    case Promote(_, _, _, _, _) => PlanPromotion(s, op)
    case Reject(_, _, _, _) => PlanRejection(s, op)
    case MergeDuplicates(ts) => PlanMerge(s, ts)
    case DecayContradicted(ts) => PlanDecay(s, ts)
    case DecayInferred(ts, factors) => PlanInferredDecay(s, ts, factors)
    case SupersedeStale(ts) => PlanStale(s, ts)
    case WriteChunk(_, _, _, _, _, _) => PlanChunk(s, op)
    case Backfill(_, _, _) => PlanBackfill(s, op)
  }

  predicate Sweep(op: Op) { op.MergeDuplicates? || op.SupersedeStale? }

  predicate Minting(op: Op) {
    op.WriteClaim? || op.WriteHyperedge? || op.WriteEvent? || op.Contradict? || op.Propose? || op.Promote?
      || op.WriteChunk?
  }

  predicate Updating(op: Op) {
    op.WriteObservation? || op.Prune? || op.Retire? || op.Reject? || op.DecayContradicted? || op.DecayInferred?
    || op.Backfill?
  }

  lemma SweepIsPlanned(s: Live, op: Op)
    requires Sweep(op)
    ensures PlanOf(s, op) == if op.MergeDuplicates? then PlanMerge(s, op.ts) else PlanStale(s, op.ts)
  {
    assert !Minting(op) && !Updating(op);
  }

  lemma PromotionIsPlanned(s: Live, op: Op)
    requires op.Promote?
    ensures PlanOf(s, op) == PlanPromotion(s, op)
  {
    assert !Sweep(op) && !Updating(op);
  }

  lemma RejectionIsPlanned(s: Live, op: Op)
    requires op.Reject?
    ensures PlanOf(s, op) == PlanRejection(s, op)
  {
    assert !Sweep(op) && !Minting(op);
  }

  lemma PruneIsPlanned(s: Live, op: Op)
    requires op.Prune?
    ensures PlanOf(s, op) == PlanPrune(s, op)
  {
    assert !Sweep(op) && !Minting(op);
  }

  // ----- committing -----

  function AppendLine(s: Live, r: LogRecord): Live {
    match SeriesOf(r)
    case ClaimLog => s.(log := s.log + [r])
    case EventLog => s.(events := s.events + [r])
    case ObservationLog => s.(observations := s.observations + [r])
  }

  function AppendAll(s: Live, records: seq<LogRecord>): Live
    decreases |records|
  {
    if records == [] then s else AppendAll(AppendLine(s, records[0]), records[1..])
  }

  /** Applies records in order until one fails; the flag tells whether any was a duplicate. */
  ghost function ApplyAll(db: Database, records: seq<LogRecord>): Outcome<Database>
    decreases |records|
  {
    if records == [] then Outcome(db, Ok(Applied))
    else
      var o := ApplyRecord(db, records[0]);
      if o.result.Err? then o
      else
        var rest := ApplyAll(o.state, records[1..]);
        if rest.result.Ok? && o.result.value == Duplicate then Outcome(rest.state, Ok(Duplicate)) else rest
  }

  ghost function Commit(s: Live, records: seq<LogRecord>): Stepped {
    var appended := AppendAll(s, records);
    var o := ApplyAll(s.db, records);
    match o.result
    case Err(_) => Stepped(appended, LogAhead)
    case Ok(Duplicate) => Stepped(appended.(db := o.state), Repeated)
    case Ok(Applied) => Stepped(appended.(db := o.state), Committed)
  }

  /** Committing one line: the rows and the line together, or the line alone. */
  lemma CommitOne(s: Live, r: LogRecord)
    ensures Commit(s, [r]) == match ApplyRecord(s.db, r).result
                              case Err(_) => Stepped(AppendLine(s, r), LogAhead)
                              case Ok(Duplicate) =>
                                Stepped(AppendLine(s, r).(db := ApplyRecord(s.db, r).state), Repeated)
                              case Ok(Applied) =>
                                Stepped(AppendLine(s, r).(db := ApplyRecord(s.db, r).state), Committed)
  {
    var o := ApplyRecord(s.db, r);
    assert [r][1..] == [] && [r][0] == r;
    assert AppendAll(s, [r]) == AppendLine(s, r);
    assert o.result.Ok? ==> ApplyAll(o.state, []) == Outcome(o.state, Ok(Applied));
    assert ApplyAll(s.db, [r]) == if o.result == Ok(Duplicate) then Outcome(o.state, Ok(Duplicate)) else o;
  }

  /** Committing two lines: what the second meets is what the first leaves. */
  lemma CommitTwo(s: Live, a: LogRecord, b: LogRecord)
    ensures var first := ApplyRecord(s.db, a);
            var second := ApplyRecord(first.state, b);
            var appended := AppendLine(AppendLine(s, a), b);
            Commit(s, [a, b]) ==
              if first.result.Err? || second.result.Err? then Stepped(appended, LogAhead)
              else Stepped(appended.(db := second.state),
                           if first.result.value == Applied && second.result.value == Applied
                           then Committed else Repeated)
  {
    assert [a, b][1..] == [b] && [b][1..] == [];
    var first := ApplyRecord(s.db, a);
    assert AppendAll(s, [a, b]) == AppendAll(AppendLine(s, a), [b]) == AppendLine(AppendLine(s, a), b);
    if first.result.Ok? {
      var second := ApplyRecord(first.state, b);
      assert second.result.Ok? ==> ApplyAll(second.state, []) == Outcome(second.state, Ok(Applied));
      assert ApplyAll(first.state, [b]) ==
          if second.result == Ok(Duplicate) then Outcome(second.state, Ok(Duplicate)) else second;
    }
  }

  ghost function Step(s: Live, op: Op): Stepped { Execute(s, PlanOf(s, op)) }

  ghost function Execute(s: Live, plan: Plan): Stepped {
    match plan
    case Refuse => Stepped(s, Unchanged)
    case Nothing => Stepped(s, Unchanged)
    case Write(lastId, records) => Commit(s.(lastId := lastId), records)
  }

  /** contradict: the checks, the replacement claim if there is one, then the contradiction naming it. */
  ghost function ContradictStep(s: Live, ts: int, tick: nat, claimId: int, reason: string,
                                replacement: Option<ClaimWrite>, laterTs: int, laterTick: nat): Stepped
  {
    if claimId !in s.db.core.claims || Blank(reason) then Stepped(s, Unchanged)
    else if replacement.None? then Step(s, Contradict(laterTs, laterTick, claimId, reason, false))
    else
      var first := Step(s, WriteClaim(ts, tick, replacement.value));
      if first.status != Committed then first
      else Step(first.live, Contradict(laterTs, laterTick, claimId, reason, true))
  }

  /** The state after a run of calls. */
  ghost function Run(s: Live, ops: seq<Op>): Live
    decreases |ops|
  {
    if ops == [] then s else Step(Run(s, ops[..|ops| - 1]), ops[|ops| - 1]).live
  }

  /** No call of the run left its log ahead of the database. */
  ghost predicate Succeeds(s: Live, ops: seq<Op>)
    decreases |ops|
  {
    ops != [] ==>
      Succeeds(s, ops[..|ops| - 1]) && Step(Run(s, ops[..|ops| - 1]), ops[|ops| - 1]).status != LogAhead
  }
}
