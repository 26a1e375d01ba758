/** What each writer accepts, what line it logs and what it leaves in the tables when it commits, in terms of the
    arguments of the call alone (crates/aver-core/src/claims.rs, hyperedges.rs, episodic.rs, candidates.rs,
    vectors.rs). */
module Calls {
  import opened Prelude
  import opened Records
  import opened Projection
  import opened Consolidation
  import opened Compaction
  import opened Writers
  import opened Effects

  // ----- what a call may say -----

  ghost predicate HasText(s: string) { exists i :: 0 <= i < |s| && !IsWhitespace(s[i]) }

  predicate NameChar(c: char) {
    'a' <= c <= 'z' || 'A' <= c <= 'Z' || '0' <= c <= '9' || c == '_' || c == '-'
  }

  ghost predicate ScopeText(s: string) { s != "" && forall i :: 0 <= i < |s| ==> NameChar(s[i]) || s[i] == '/' }

  ghost predicate AgentText(s: string) { s != "" && forall i :: 0 <= i < |s| ==> NameChar(s[i]) }

  /** Only a user's word brings in a new predicate. */
  ghost predicate MayUse(core: ClaimTables, name: string, p: Provenance) {
    Named(core.vocabulary.rows, name) || name in core.vocabulary.aliases || p == UserAsserted
  }

  lemma TextChecks(s: string)
    ensures Blank(s) <==> !HasText(s)
    ensures ValidScope(s) <==> ScopeText(s)
    ensures ValidAgentId(s) <==> AgentText(s)
  {
  }

  /** White space, code point by code point. */
  lemma WhitespaceIs(c: char)
    ensures IsWhitespace(c) <==>
              (c as int) in {9, 10, 11, 12, 13, 32, 133, 160, 5760, 8192, 8193, 8194, 8195, 8196, 8197, 8198, 8199,
                             8200, 8201, 8202, 8232, 8233, 8239, 8287, 12288}
  {
  }

  // ----- one line, logged and applied -----

  /** The proposed id, or the next one where the clock has not moved on. */
  function NextId(s: Live, tick: nat): int { if tick > s.lastId then tick else s.lastId + 1 }

  /** The line is appended whatever happens; the tables change only when it applies. */
  ghost predicate LineLogged(s: Live, t: Stepped, lastId: int, r: LogRecord) {
    && t.live.lastId == lastId
    && t.live.log == s.log + (if r.RecordEvent? || r.ProposeCandidate? || r.PromoteCandidate? || r.RejectCandidate?
                                 || r.RecordObservation? || r.PruneObservations? then [] else [r])
    && t.live.events ==
        s.events + (if r.RecordEvent? || r.ProposeCandidate? || r.PromoteCandidate? || r.RejectCandidate?
                                    then [r] else [])
    && t.live.observations == s.observations + (if r.RecordObservation? || r.PruneObservations? then [r] else [])
    && match ApplyRecord(s.db, r).result
       case Ok(Applied) => t.status == Committed && t.live.db == ApplyRecord(s.db, r).state
       case Ok(Duplicate) => t.status == Repeated && t.live.db == ApplyRecord(s.db, r).state
       case Err(_) => t.status == LogAhead && t.live.db == s.db
  }

  lemma OneLineCall(s: Live, op: Op, lastId: int, r: LogRecord)
    requires PlanOf(s, op) == Write(lastId, [r])
    ensures LineLogged(s, Step(s, op), lastId, r)
  {
    OneLineCommit(s, s.(lastId := lastId), lastId, r);
  }

  lemma OneLineCommit(s: Live, minted: Live, lastId: int, r: LogRecord)
    requires minted == s.(lastId := lastId)
    ensures LineLogged(s, Commit(minted, [r]), lastId, r)
  {
    CommitOne(minted, r);
  }

  lemma NothingLogged(s: Live, op: Op)
    requires !PlanOf(s, op).Write?
    ensures Step(s, op) == Stepped(s, Unchanged)
  {
  }

  // ----- insert_claim -----

  ghost predicate ClaimWelcome(core: ClaimTables, w: ClaimWrite) {
    && HasText(w.subject) && HasText(w.predicate_) && HasText(w.object_) && HasText(w.source)
    && ScopeText(w.scope) && AgentText(w.agentId) && 0.0 <= w.confidence <= 1.0
    && MayUse(core, w.predicate_, w.provenance)
  }

  ghost predicate ClaimLine(r: LogRecord, ts: int, id: int, w: ClaimWrite) {
    && r.AddClaim? && r.ts == ts && r.claimId == id && r.subject == w.subject && r.predicate_ == w.predicate_
    && r.object_ == w.object_ && r.source == w.source && r.agentId == w.agentId
    && SpellsAgentKind(r.agentKind, w.agentKind) && r.confidence == w.confidence && r.scope == w.scope
    && r.provenance.Some? && SpellsProvenance(r.provenance.value, w.provenance)
  }

  /** The row of a committed claim, in terms of what was written. */
  ghost predicate ClaimWritten(before: Claims, after: Claims, id: int, ts: int, w: ClaimWrite) {
    && id !in before && id in after && after == before[id := after[id]]
    && var row := after[id];
       && row.subject == w.subject && row.predicate_ == w.predicate_ && row.object_ == w.object_
       && row.provenance == w.provenance && row.confidence == w.confidence && row.scope == w.scope
       && row.agentId == w.agentId && row.agentKind == w.agentKind && row.sourceRefs == [w.source]
       && row.status == Active && row.writeTs == ts && row.lastSeenAt == ts
  }

  lemma SpellingsDiffer(text: string, kind: AgentKind, other: AgentKind, p: Provenance, q: Provenance)
    ensures SpellsAgentKind(text, kind) && SpellsAgentKind(text, other) ==> kind == other
    ensures SpellsProvenance(text, p) && SpellsProvenance(text, q) ==> p == q
  {
    assert "EXTRACTED"[0] != "AMBIGUOUS"[0];
  }

  lemma WriteClaimCall(s: Live, ts: int, tick: nat, w: ClaimWrite)
    ensures var t := Step(s, WriteClaim(ts, tick, w));
            if !ClaimWelcome(s.db.core, w) then t == Stepped(s, Unchanged)
            else exists r :: ClaimLine(r, ts, NextId(s, tick), w) && LineLogged(s, t, NextId(s, tick), r)
    ensures var t := Step(s, WriteClaim(ts, tick, w));
            t.status == Committed ==>
              ClaimWritten(s.db.core.claims, t.live.db.core.claims, NextId(s, tick), ts, w)
  {
    var op := WriteClaim(ts, tick, w);
    ClaimIsPlanned(s, op);
    ClaimChecks(s.db.core, w);
    if ClaimWelcome(s.db.core, w) {
      var r := ClaimRecord(ts, NextId(s, tick), w);
      WordsAreWritten(w.agentKind, w.provenance);
      assert ClaimLine(r, ts, NextId(s, tick), w);
      OneLineCall(s, op, NextId(s, tick), r);
      if ApplyRecord(s.db, r).result == Ok(Applied) { LoggedClaim(s.db, r, ts, NextId(s, tick), w); }
    } else {
      NothingLogged(s, op);
    }
  }

  lemma ClaimIsPlanned(s: Live, op: Op)
    requires op.WriteClaim?
    ensures PlanOf(s, op) == PlanClaim(s, op)
  {
    assert !Sweep(op) && !Updating(op);
  }

  lemma ClaimChecks(core: ClaimTables, w: ClaimWrite)
    ensures ClaimAllowed(core, w) <==> ClaimWelcome(core, w)
  {
    TextChecks(w.subject);
    TextChecks(w.predicate_);
    TextChecks(w.object_);
    TextChecks(w.source);
    TextChecks(w.scope);
    TextChecks(w.agentId);
  }

  lemma LoggedClaim(db: Database, r: LogRecord, ts: int, id: int, w: ClaimWrite)
    requires ClaimLine(r, ts, id, w) && ApplyRecord(db, r).result == Ok(Applied)
    ensures ClaimWritten(db.core.claims, ApplyRecord(db, r).state.core.claims, id, ts, w)
  {
    ClaimLineEffect(db, r);
    var row := ApplyRecord(db, r).state.core.claims[id];
    SpellingsDiffer(r.agentKind, row.agentKind, w.agentKind, Inferred, Inferred);
    SpellingsDiffer(r.provenance.value, Human, Human, row.provenance, w.provenance);
  }

  // ----- insert_hyperedge -----

  ghost predicate HyperedgeWelcome(core: ClaimTables, op: Op)
    requires op.WriteHyperedge?
  {
    && HasText(op.predicate_) && 0.0 <= op.confidence <= 1.0 && MayUse(core, op.predicate_, op.provenance)
    && op.sourceRefs != [] && (forall i :: 0 <= i < |op.sourceRefs| ==> HasText(op.sourceRefs[i]))
    && op.participants != []
    && forall i :: 0 <= i < |op.participants| ==> HasText(op.participants[i].role) && HasText(op.participants[i].entity)
  }

  ghost predicate HyperedgeLine(r: LogRecord, id: int, op: Op)
    requires op.WriteHyperedge?
  {
    && r.AddHyperedge? && r.ts == op.ts && r.hyperedgeId == id && r.predicate_ == op.predicate_
    && SpellsProvenance(r.provenanceName, op.provenance) && r.confidence == op.confidence
    && r.sourceRefs == op.sourceRefs && r.participants == op.participants
  }

  ghost predicate HyperedgeWritten(before: map<int, HyperedgeRow>, after: map<int, HyperedgeRow>, id: int, op: Op)
    requires op.WriteHyperedge?
  {
    && id !in before && id in after && after == before[id := after[id]]
    && var row := after[id];
       && row.predicate_ == op.predicate_ && row.provenance == op.provenance && row.confidence == op.confidence
       && row.sourceRefs == op.sourceRefs && row.createdAt == op.ts && row.participants == op.participants
  }

  lemma WriteHyperedgeCall(s: Live, op: Op)
    requires op.WriteHyperedge?
    ensures var t, id := Step(s, op), NextId(s, op.tick);
            && (if !HyperedgeWelcome(s.db.core, op) then t == Stepped(s, Unchanged)
                else exists r :: HyperedgeLine(r, id, op) && LineLogged(s, t, id, r))
            && (t.status == Committed ==>
                  HyperedgeWritten(s.db.core.hyperedges, t.live.db.core.hyperedges, id, op))
  {
    assert !Sweep(op) && !Updating(op);
    assert PlanOf(s, op) == PlanHyperedge(s, op);
    HyperedgeChecks(s.db.core, op);
    if HyperedgeWelcome(s.db.core, op) {
      var id := NextId(s, op.tick);
      var r := AddHyperedge(op.ts, id, op.predicate_, op.provenance.Name(), op.confidence, op.sourceRefs,
                            op.participants);
      WordsAreWritten(Human, op.provenance);
      assert HyperedgeLine(r, id, op);
      OneLineCall(s, op, id, r);
      if ApplyRecord(s.db, r).result == Ok(Applied) { LoggedHyperedge(s.db, r, id, op); }
    } else {
      NothingLogged(s, op);
    }
  }

  lemma HyperedgeChecks(core: ClaimTables, op: Op)
    requires op.WriteHyperedge?
    ensures HyperedgeAllowed(core, op) <==> HyperedgeWelcome(core, op)
  {
    TextChecks(op.predicate_);
    forall i | 0 <= i < |op.sourceRefs| ensures Blank(op.sourceRefs[i]) <==> !HasText(op.sourceRefs[i]) {
      TextChecks(op.sourceRefs[i]);
    }
    forall i | 0 <= i < |op.participants|
      ensures Blank(op.participants[i].role) <==> !HasText(op.participants[i].role)
      ensures Blank(op.participants[i].entity) <==> !HasText(op.participants[i].entity)
    {
      TextChecks(op.participants[i].role);
      TextChecks(op.participants[i].entity);
    }
  }

  lemma LoggedHyperedge(db: Database, r: LogRecord, id: int, op: Op)
    requires op.WriteHyperedge? && HyperedgeLine(r, id, op) && ApplyRecord(db, r).result == Ok(Applied)
    ensures HyperedgeWritten(db.core.hyperedges, ApplyRecord(db, r).state.core.hyperedges, id, op)
  {
    HyperedgeLineEffect(db, r);
    var row := ApplyRecord(db, r).state.core.hyperedges[id];
    SpellingsDiffer(r.provenanceName, Human, Human, row.provenance, op.provenance);
  }

  // ----- record_event, record_observation, prune_observations -----

  ghost predicate EventWelcome(op: Op)
    requires op.WriteEvent?
  {
    HasText(op.session) && HasText(op.kind) && HasText(op.source) && AgentText(op.agentId) && ScopeText(op.scope)
  }

  ghost predicate EventLine(r: LogRecord, id: int, op: Op)
    requires op.WriteEvent?
  {
    && r.RecordEvent? && r.ts == op.ts && r.eventId == id && r.sessionId == op.session && r.eventKind == op.kind
    && r.payload == op.payload && r.source == op.source && r.agentId == op.agentId
    && SpellsAgentKind(r.agentKind, op.agentKind) && r.scope == op.scope
  }

  ghost predicate EventWritten(before: map<int, EventRow>, after: map<int, EventRow>, id: int, op: Op)
    requires op.WriteEvent?
  {
    && id !in before && id in after && after == before[id := after[id]]
    && var row := after[id];
       && row.sessionId == op.session && row.kind == op.kind && row.payload == op.payload && row.source == op.source
       && row.agentId == op.agentId && row.agentKind == op.agentKind && row.ts == op.ts && row.scope == op.scope
  }

  lemma WriteEventCall(s: Live, op: Op)
    requires op.WriteEvent?
    ensures var t, id := Step(s, op), NextId(s, op.tick);
            && (if !EventWelcome(op) then t == Stepped(s, Unchanged)
                else exists r :: EventLine(r, id, op) && LineLogged(s, t, id, r))
            && (t.status == Committed ==> EventWritten(s.db.episodic.events, t.live.db.episodic.events, id, op))
  {
    assert !Sweep(op) && !Updating(op);
    assert PlanOf(s, op) == PlanEvent(s, op);
    EventChecks(op);
    if EventWelcome(op) {
      var id := NextId(s, op.tick);
      var r := RecordEvent(op.ts, id, op.session, op.kind, op.payload, op.source, op.agentId, op.agentKind.Name(),
                           op.scope);
      WordsAreWritten(op.agentKind, Inferred);
      assert EventLine(r, id, op);
      OneLineCall(s, op, id, r);
      if ApplyRecord(s.db, r).result == Ok(Applied) { LoggedEvent(s.db, r, id, op); }
    } else {
      NothingLogged(s, op);
    }
  }

  lemma EventChecks(op: Op)
    requires op.WriteEvent?
    ensures EventWelcome(op) <==>
              !Blank(op.session) && !Blank(op.kind) && !Blank(op.source) && ValidAgentId(op.agentId)
                && ValidScope(op.scope)
  {
    TextChecks(op.session);
    TextChecks(op.kind);
    TextChecks(op.source);
    TextChecks(op.agentId);
    TextChecks(op.scope);
  }

  lemma LoggedEvent(db: Database, r: LogRecord, id: int, op: Op)
    requires op.WriteEvent? && EventLine(r, id, op) && ApplyRecord(db, r).result == Ok(Applied)
    ensures EventWritten(db.episodic.events, ApplyRecord(db, r).state.episodic.events, id, op)
  {
    EventLineEffect(db, r);
    SpellingsDiffer(r.agentKind, ApplyRecord(db, r).state.episodic.events[id].agentKind, op.agentKind, Inferred,
                    Inferred);
  }

  /** Every cited event is there and of the session. */
  ghost predicate ObservationWelcome(events: map<int, EventRow>, op: Op)
    requires op.WriteObservation?
  {
    && HasText(op.session) && HasText(op.content) && HasText(op.derivation) && ScopeText(op.scope)
    && (op.relevance == "low" || op.relevance == "medium" || op.relevance == "high" || op.relevance == "critical")
    && op.eventIds != []
    && forall i :: 0 <= i < |op.eventIds| ==>
         op.eventIds[i] in events && events[op.eventIds[i]].sessionId == op.session
  }

  /** The agent is that of the first cited event. */
  ghost predicate ObservationLine(events: map<int, EventRow>, r: LogRecord, op: Op)
    requires op.WriteObservation? && op.eventIds != [] && op.eventIds[0] in events
  {
    && r.RecordObservation? && r.ts == op.ts && r.observationId == op.hash && r.sessionId == op.session
    && r.content == op.content && r.relevance == op.relevance && r.sourceEventIds == op.eventIds
    && r.agentId == events[op.eventIds[0]].agentId && SpellsAgentKind(r.agentKind, events[op.eventIds[0]].agentKind)
    && r.derivation == op.derivation && r.scope == op.scope
  }

  ghost predicate ObservationWritten(events: map<int, EventRow>, before: map<string, ObservationRow>,
                                     after: map<string, ObservationRow>, op: Op)
    requires op.WriteObservation? && op.eventIds != [] && op.eventIds[0] in events
  {
    && op.hash !in before && op.hash in after && after == before[op.hash := after[op.hash]]
    && var row := after[op.hash];
       && row.sessionId == op.session && row.content == op.content && row.relevance == op.relevance
       && row.sourceEventIds == op.eventIds && row.agentId == events[op.eventIds[0]].agentId
       && SpellsAgentKind(row.agentKind, events[op.eventIds[0]].agentKind)
       && row.derivation == op.derivation && row.ts == op.ts && row.scope == op.scope
  }

  lemma WriteObservationCall(s: Live, op: Op)
    requires op.WriteObservation?
    ensures var t, events := Step(s, op), s.db.episodic.events;
            if !ObservationWelcome(events, op) || op.hash in s.db.notes.observations then t == Stepped(s, Unchanged)
            else
              && (exists r :: ObservationLine(events, r, op) && LineLogged(s, t, s.lastId, r))
              && (t.status == Committed ==>
                    ObservationWritten(events, s.db.notes.observations, t.live.db.notes.observations, op))
  {
    assert !Sweep(op) && !Minting(op);
    assert PlanOf(s, op) == PlanObservation(s, op);
    ObservationChecks(s.db.episodic, op);
    if ObservationWelcome(s.db.episodic.events, op) && op.hash !in s.db.notes.observations {
      var first := s.db.episodic.events[op.eventIds[0]];
      var r := RecordObservation(op.ts, op.hash, op.session, op.content, op.relevance, op.eventIds, first.agentId,
                                 first.agentKind.Name(), op.derivation, op.scope);
      WordsAreWritten(first.agentKind, Inferred);
      assert ObservationLine(s.db.episodic.events, r, op);
      OneLineCall(s, op, s.lastId, r);
      ObservationLineEffect(s.db, r);
    } else {
      NothingLogged(s, op);
    }
  }

  lemma ObservationChecks(t: EventTables, op: Op)
    requires op.WriteObservation?
    ensures ObservationWelcome(t.events, op) <==>
              && !Blank(op.session) && !Blank(op.content) && !Blank(op.derivation) && ValidScope(op.scope)
              && KnownRelevance(op.relevance) && Cites(t, op.session, op.eventIds)
  {
    TextChecks(op.session);
    TextChecks(op.content);
    TextChecks(op.derivation);
    TextChecks(op.scope);
  }

  /** The session's observation is listed by none of its prune markers. */
  ghost predicate InView(t: ObservationTables, session: string, id: string) {
    && id in t.observations && t.observations[id].sessionId == session
    && forall m :: m in t.markers && t.markers[m].sessionId == session ==> id !in t.markers[m].prunedIds
  }

  ghost function View(t: ObservationTables, session: string): set<string> {
    set id | id in t.observations && InView(t, session, id)
  }

  /** Every event of the session is cited by an observation in view. */
  ghost predicate Digested(events: map<int, EventRow>, t: ObservationTables, session: string) {
    forall e :: e in events && events[e].sessionId == session ==>
      exists id :: InView(t, session, id) && e in t.observations[id].sourceEventIds
  }

  /** low before medium before high before critical. */
  ghost predicate LessRelevant(a: string, b: string) {
    || (b == "critical" && (a == "low" || a == "medium" || a == "high"))
    || (b == "high" && (a == "low" || a == "medium"))
    || (b == "medium" && a == "low")
  }

  ghost predicate OneOfFour(relevance: string) {
    relevance == "low" || relevance == "medium" || relevance == "high" || relevance == "critical"
  }

  /** By relevance, then age, then id. */
  ghost predicate GoesFirst(t: ObservationTables, a: string, b: string)
    requires a in t.observations && b in t.observations
  {
    var x, y := t.observations[a], t.observations[b];
    || LessRelevant(x.relevance, y.relevance)
    || (x.relevance == y.relevance && (x.ts < y.ts || (x.ts == y.ts && StringLe(a, b))))
  }

  lemma PruneOrderSays(t: ObservationTables, a: string, b: string)
    requires a in t.observations && b in t.observations
    requires OneOfFour(t.observations[a].relevance) && OneOfFour(t.observations[b].relevance)
    ensures PruneLe(t, a, b) <==> GoesFirst(t, a, b)
  {
  }

  lemma ViewIsVisible(t: ObservationTables, session: string)
    ensures Visible(t, session) == View(t, session)
  {
    forall id ensures id in Visible(t, session) <==> id in View(t, session) {
      if id in PrunedIds(t, session) {
        var m :| m in t.markers && t.markers[m].sessionId == session && id in t.markers[m].prunedIds;
      }
    }
  }

  lemma DigestedIsCovered(e: EventTables, t: ObservationTables, session: string)
    ensures Digested(e.events, t, session) <==>
              forall id :: id in SessionEvents(e, session) ==> id in CoveredIds(t, session)
  {
    ViewIsVisible(t, session);
    forall ev | ev in e.events && e.events[ev].sessionId == session
      ensures ev in CoveredIds(t, session) <==>
                exists id :: InView(t, session, id) && ev in t.observations[id].sourceEventIds
    {
      if id :| InView(t, session, id) && ev in t.observations[id].sourceEventIds { assert id in View(t, session); }
    }
  }

  /** The dropped are as many as exceed `keep`, each once, all in view, and go before whatever is kept. */
  ghost predicate DropsTheLeast(t: ObservationTables, session: string, keep: nat, drop: seq<string>) {
    && |drop| + keep == |View(t, session)| && Each(drop) && (forall id :: id in drop ==> id in View(t, session))
    && forall a, b :: a in drop && b in View(t, session) && b !in drop
                      && OneOfFour(t.observations[a].relevance) && OneOfFour(t.observations[b].relevance) ==>
         GoesFirst(t, a, b)
  }

  lemma ChoiceDropsTheLeast(e: EventTables, t: ObservationTables, session: string, keep: nat)
    ensures var drop := PruneChoice(e, t, session, keep);
            if |View(t, session)| > keep && Digested(e.events, t, session)
            then drop != [] && DropsTheLeast(t, session, keep, drop) else drop == []
  {
    var drop := PruneChoice(e, t, session, keep);
    ViewIsVisible(t, session);
    DigestedIsCovered(e, t, session);
    PruneDropsTheFront(e, t, session, keep);
    forall a, b | a in drop && b in View(t, session) && b !in drop && OneOfFour(t.observations[a].relevance)
                  && OneOfFour(t.observations[b].relevance)
      ensures GoesFirst(t, a, b)
    {
      PruneOrderSays(t, a, b);
    }
  }

  ghost predicate MarkerLine(t: ObservationTables, r: LogRecord, op: Op)
    requires op.Prune?
  {
    && r.PruneObservations? && r.ts == op.ts && r.markerId == op.hash && r.sessionId == op.session
    && DropsTheLeast(t, op.session, op.keep, r.prunedIds)
  }

  ghost predicate MarkerWritten(before: ObservationTables, after: ObservationTables, op: Op)
    requires op.Prune?
  {
    && op.hash !in before.markers && op.hash in after.markers
    && after == before.(markers := before.markers[op.hash := after.markers[op.hash]])
    && var row := after.markers[op.hash];
       row.sessionId == op.session && row.ts == op.ts && DropsTheLeast(before, op.session, op.keep, row.prunedIds)
  }

  /** A prune needs more observations in view than it keeps, and every event of the session digested. */
  lemma PruneCall(s: Live, op: Op)
    requires op.Prune?
    ensures var t, notes := Step(s, op), s.db.notes;
            if !HasText(op.session) || |View(notes, op.session)| <= op.keep
               || !Digested(s.db.episodic.events, notes, op.session) then t == Stepped(s, Unchanged)
            else
              && (exists r :: MarkerLine(notes, r, op) && LineLogged(s, t, s.lastId, r))
              && (t.status == Committed ==> MarkerWritten(notes, t.live.db.notes, op))
  {
    PruneIsPlanned(s, op);
    TextChecks(op.session);
    ChoiceDropsTheLeast(s.db.episodic, s.db.notes, op.session, op.keep);
    var drop := PruneChoice(s.db.episodic, s.db.notes, op.session, op.keep);
    if HasText(op.session) && drop != [] {
      var r := PruneObservations(op.ts, op.hash, op.session, drop);
      assert MarkerLine(s.db.notes, r, op);
      OneLineCall(s, op, s.lastId, r);
      MarkerLineEffect(s.db, r);
    } else {
      NothingLogged(s, op);
    }
  }

  // ----- retire_claim, record_contradiction -----

  ghost predicate RetireLine(r: LogRecord, op: Op)
    requires op.Retire?
  {
    r.RetireClaim? && r.ts == op.ts && r.claimId == op.claimId && r.reason == op.reason
  }

  lemma RetireCall(s: Live, op: Op)
    requires op.Retire?
    ensures var t, claims := Step(s, op), s.db.core.claims;
            if !HasText(op.reason) || op.claimId !in claims || claims[op.claimId].status == Invalidated then
              t == Stepped(s, Unchanged)
            else
              && (exists r :: RetireLine(r, op) && LineLogged(s, t, s.lastId, r))
              && (t.status == Committed ==>
                    t.live.db.core.claims == claims[op.claimId := claims[op.claimId].(
                      status := Invalidated, sourceRefs := claims[op.claimId].sourceRefs + ["retired:" + op.reason],
                      lastSeenAt := op.ts)])
  {
    assert !Sweep(op) && !Minting(op);
    assert PlanOf(s, op) == PlanRetirement(s, op);
    TextChecks(op.reason);
    if PlanRetirement(s, op).Write? {
      var r := RetireClaim(op.ts, op.claimId, op.reason);
      assert RetireLine(r, op);
      OneLineCall(s, op, s.lastId, r);
      RetireLineEffect(s.db, r);
    } else {
      NothingLogged(s, op);
    }
  }

  /** The replacement, if there is one, is the claim minted last. */
  ghost predicate ContradictionLine(r: LogRecord, id: int, last: int, op: Op)
    requires op.Contradict?
  {
    && r.AddContradiction? && r.ts == op.ts && r.contradictionId == id && r.claimId == op.claimId
    && r.reason == op.reason && r.newClaimId == if op.replaced then Some(last) else None
  }

  lemma ContradictCall(s: Live, op: Op)
    requires op.Contradict?
    ensures var t, id, claims := Step(s, op), NextId(s, op.tick), s.db.core.claims;
            if !HasText(op.reason) || op.claimId !in claims
               || (op.replaced && (s.lastId !in claims || s.lastId == op.claimId)) then t == Stepped(s, Unchanged)
            else
              && (exists r :: ContradictionLine(r, id, s.lastId, op) && LineLogged(s, t, id, r))
              && (t.status == Committed ==>
                    && id in t.live.db.core.contradictions
                    && var row := t.live.db.core.contradictions[id];
                       && row.claimId == op.claimId && row.reason == op.reason && row.createdAt == op.ts
                       && row.newClaimId == (if op.replaced then Some(s.lastId) else None)
                       && t.live.db.core.contradictions == s.db.core.contradictions[id := row])
  {
    assert !Sweep(op) && !Updating(op);
    assert PlanOf(s, op) == PlanContradiction(s, op);
    TextChecks(op.reason);
    if PlanContradiction(s, op).Write? {
      var id := NextId(s, op.tick);
      var r := AddContradiction(op.ts, id, op.claimId, op.reason, if op.replaced then Some(s.lastId) else None);
      assert ContradictionLine(r, id, s.lastId, op);
      OneLineCall(s, op, id, r);
      ContradictionLineEffect(s.db, r);
    } else {
      NothingLogged(s, op);
    }
  }

  // ----- candidates -----

  ghost predicate ProposalLine(r: LogRecord, id: int, op: Op)
    requires op.Propose?
  {
    && r.ProposeCandidate? && r.ts == op.ts && r.candidateId == id && r.eventId == op.eventId
    && r.subject == op.subject && r.predicate_ == op.predicate_ && r.object_ == op.object_ && r.scope == op.scope
  }

  lemma ProposeCall(s: Live, op: Op)
    requires op.Propose?
    ensures var t, id := Step(s, op), NextId(s, op.tick);
            if op.eventId !in s.db.episodic.events || !HasText(op.subject) || !HasText(op.predicate_)
               || !HasText(op.object_) || !ScopeText(op.scope) then t == Stepped(s, Unchanged)
            else
              && (exists r :: ProposalLine(r, id, op) && LineLogged(s, t, id, r))
              && (t.status == Committed ==>
                    && id in t.live.db.episodic.candidates
                    && var row := t.live.db.episodic.candidates[id];
                       && row.eventId == op.eventId && row.subject == op.subject && row.predicate_ == op.predicate_
                       && row.object_ == op.object_ && row.scope == op.scope && row.createdAt == op.ts
                       && row.status == Pending && row.promotedClaimId == None && row.rejectionReason == None
                       && t.live.db.episodic.candidates == s.db.episodic.candidates[id := row])
  {
    assert !Sweep(op) && !Updating(op);
    assert PlanOf(s, op) == PlanProposal(s, op);
    TextChecks(op.subject);
    TextChecks(op.predicate_);
    TextChecks(op.object_);
    TextChecks(op.scope);
    if PlanProposal(s, op).Write? {
      var id := NextId(s, op.tick);
      var r := ProposeCandidate(op.ts, id, op.eventId, op.subject, op.predicate_, op.object_, op.scope);
      assert ProposalLine(r, id, op);
      OneLineCall(s, op, id, r);
      ProposalLineEffect(s.db, r);
    } else {
      NothingLogged(s, op);
    }
  }

  /** Decimal digits, a minus sign in front of a negative number. */
  ghost predicate Spells(text: string, n: int) {
    if n < 0 then text != "" && text[0] == '-' && Spells10(text[1..], -n) else Spells10(text, n)
  }

  ghost predicate Spells10(text: string, n: nat)
    decreases |text|
  {
    && text != "" && '0' <= text[|text| - 1] <= '9'
    && var low := text[|text| - 1] as int - '0' as int;
       if |text| == 1 then n == low
       else n == 10 * (n / 10) + low && n >= 10 && Spells10(text[..|text| - 1], n / 10)
  }

  lemma {:induction false} DigitsSpell(n: int)
    ensures Spells(Digits(n), n)
    decreases if n < 0 then 1 - n else n
  {
    if n < 0 {
      DigitsSpell(-n);
    } else if n >= 10 {
      DigitsSpell(n / 10);
      assert Digits(n)[..|Digits(n)| - 1] == Digits(n / 10);
    }
  }

  /** Whom and how much a promotion believes: the decision's attribution, or else INFERRED at 0.45. */
  ghost function Believed(op: Op): (Provenance, real)
    requires op.Promote?
  {
    if op.attribution.Some? then op.attribution.value else (Inferred, 0.45)
  }

  ghost predicate PromotionWelcome(s: Live, op: Op)
    requires op.Promote?
  {
    && op.candidateId in s.db.episodic.candidates
    && var c := s.db.episodic.candidates[op.candidateId];
       && c.status != Rejected && c.promotedClaimId == None && c.eventId in s.db.episodic.events
       && MayUse(s.db.core, c.predicate_, Believed(op).0)
  }

  /** The claim says what the candidate proposed, with its event as the source and in its agent's name. */
  ghost predicate PromotedClaimLine(s: Live, r: LogRecord, id: int, op: Op)
    requires op.Promote? && PromotionWelcome(s, op)
  {
    var c := s.db.episodic.candidates[op.candidateId];
    var event := s.db.episodic.events[c.eventId];
    && r.AddClaim? && r.ts == op.ts && r.claimId == id && r.subject == c.subject && r.predicate_ == c.predicate_
    && r.object_ == c.object_ && |r.source| > 6 && r.source[..6] == "event:" && Spells(r.source[6..], c.eventId)
    && r.agentId == event.agentId && SpellsAgentKind(r.agentKind, event.agentKind) && r.confidence == Believed(op).1
    && r.provenance.Some? && SpellsProvenance(r.provenance.value, Believed(op).0) && r.scope == c.scope
  }

  ghost predicate PromotionWritten(s: Live, t: Live, id: int, op: Op)
    requires op.Promote? && PromotionWelcome(s, op)
  {
    var c := s.db.episodic.candidates[op.candidateId];
    var event := s.db.episodic.events[c.eventId];
    && id !in s.db.core.claims && id in t.db.core.claims && op.candidateId in t.db.episodic.candidates
    && t.db.core.claims == s.db.core.claims[id := t.db.core.claims[id]]
    && (var row := t.db.core.claims[id];
        && row.subject == c.subject && row.predicate_ == c.predicate_ && row.object_ == c.object_
        && row.provenance == Believed(op).0 && row.confidence == Believed(op).1 && row.scope == c.scope
        && row.agentId == event.agentId && row.agentKind == event.agentKind
        && |row.sourceRefs| == 1 && |row.sourceRefs[0]| > 6 && row.sourceRefs[0][..6] == "event:"
        && Spells(row.sourceRefs[0][6..], c.eventId)
        && row.status == Active && row.writeTs == op.ts && row.lastSeenAt == op.ts)
    && t.db.episodic == s.db.episodic.(candidates :=
         s.db.episodic.candidates[op.candidateId := c.(status := Promoted, promotedClaimId := Some(id))])
  }

  /** Both lines are appended, the claim's to its log and the promotion's to the event log, and applied together or
      not. */
  lemma PromoteCall(s: Live, op: Op)
    requires op.Promote?
    ensures var t, id := Step(s, op), NextId(s, op.tick);
            if !PromotionWelcome(s, op) then t == Stepped(s, Unchanged)
            else
              && t.live.lastId == id && |t.live.log| == |s.log| + 1 && t.live.log[..|s.log|] == s.log
              && PromotedClaimLine(s, t.live.log[|s.log|], id, op)
              && t.live.events == s.events + [LogRecord.PromoteCandidate(op.ts, op.candidateId, id, op.decision)]
              && t.live.observations == s.observations
              && (t.status == Committed ==> PromotionWritten(s, t.live, id, op))
              && (t.status == LogAhead ==> t.live.db == s.db)
  {
    PromotionIsPlanned(s, op);
    PromotionChecks(s, op);
    if PromotionWelcome(s, op) {
      var id := NextId(s, op.tick);
      var c := s.db.episodic.candidates[op.candidateId];
      var event := s.db.episodic.events[c.eventId];
      var claim := PromotedClaim(op.ts, id, c, event, Believed(op).0, Believed(op).1);
      var promotion := LogRecord.PromoteCandidate(op.ts, op.candidateId, id, op.decision);
      PromotedClaimSays(s, op, claim, id);
      PairLogged(s, op, id, claim, promotion);
      if Step(s, op).status == Committed { LoggedPromotion(s, op, id, claim, promotion); }
    } else {
      NothingLogged(s, op);
    }
  }

  lemma PromotionChecks(s: Live, op: Op)
    requires op.Promote?
    ensures PlanPromotion(s, op).Write? <==> PromotionWelcome(s, op)
  {
  }

  lemma PromotedClaimSays(s: Live, op: Op, claim: LogRecord, id: int)
    requires op.Promote? && PromotionWelcome(s, op)
    requires var c := s.db.episodic.candidates[op.candidateId];
             claim == PromotedClaim(op.ts, id, c, s.db.episodic.events[c.eventId], Believed(op).0, Believed(op).1)
    ensures PromotedClaimLine(s, claim, id, op)
  {
    var c := s.db.episodic.candidates[op.candidateId];
    WordsAreWritten(s.db.episodic.events[c.eventId].agentKind, Believed(op).0);
    DigitsSpell(c.eventId);
    assert claim.source == "event:" + Digits(c.eventId);
    assert claim.source[..6] == "event:" && claim.source[6..] == Digits(c.eventId);
  }

  lemma PairLogged(s: Live, op: Op, id: int, claim: LogRecord, promotion: LogRecord)
    requires PlanOf(s, op) == Write(id, [claim, promotion]) && claim.AddClaim? && promotion.PromoteCandidate?
    ensures var t, first := Step(s, op), ApplyRecord(s.db, claim);
            && t.live.lastId == id && t.live.log == s.log + [claim] && t.live.events == s.events + [promotion]
            && t.live.observations == s.observations
            && (t.status == LogAhead ==> t.live.db == s.db)
            && (t.status == Committed ==>
                  && first.result == Ok(Applied) && ApplyRecord(first.state, promotion).result == Ok(Applied)
                  && t.live.db == ApplyRecord(first.state, promotion).state)
  {
    PairCommit(s.(lastId := id), claim, promotion);
  }

  lemma PairCommit(s: Live, claim: LogRecord, promotion: LogRecord)
    requires claim.AddClaim? && promotion.PromoteCandidate?
    ensures var t, first := Commit(s, [claim, promotion]), ApplyRecord(s.db, claim);
            && t.live.lastId == s.lastId && t.live.log == s.log + [claim] && t.live.events == s.events + [promotion]
            && t.live.observations == s.observations
            && (t.status == LogAhead ==> t.live.db == s.db)
            && (t.status == Committed ==>
                  && first.result == Ok(Applied) && ApplyRecord(first.state, promotion).result == Ok(Applied)
                  && t.live.db == ApplyRecord(first.state, promotion).state)
  {
    CommitTwo(s, claim, promotion);
    OneAppended(s, claim, promotion);
  }

  lemma OneAppended(s: Live, claim: LogRecord, promotion: LogRecord)
    requires claim.AddClaim? && promotion.PromoteCandidate?
    ensures AppendLine(AppendLine(s, claim), promotion) ==
            s.(log := s.log + [claim], events := s.events + [promotion])
  {
  }

  lemma LoggedPromotion(s: Live, op: Op, id: int, claim: LogRecord, promotion: LogRecord)
    requires op.Promote? && PromotionWelcome(s, op) && PromotedClaimLine(s, claim, id, op)
    requires promotion == LogRecord.PromoteCandidate(op.ts, op.candidateId, id, op.decision)
    requires ApplyRecord(s.db, claim).result == Ok(Applied)
    requires ApplyRecord(ApplyRecord(s.db, claim).state, promotion).result == Ok(Applied)
    requires Step(s, op).live.db == ApplyRecord(ApplyRecord(s.db, claim).state, promotion).state
    ensures PromotionWritten(s, Step(s, op).live, id, op)
  {
    var c := s.db.episodic.candidates[op.candidateId];
    var first := ApplyRecord(s.db, claim).state;
    ClaimLineEffect(s.db, claim);
    PromotionLineEffect(first, promotion);
    var row := first.core.claims[id];
    SpellingsDiffer(claim.agentKind, row.agentKind, s.db.episodic.events[c.eventId].agentKind, Inferred, Inferred);
    SpellingsDiffer(claim.provenance.value, Human, Human, row.provenance, Believed(op).0);
  }

  lemma RejectCall(s: Live, op: Op)
    requires op.Reject?
    ensures var t, rows := Step(s, op), s.db.episodic.candidates;
            if op.candidateId !in rows || !HasText(op.reason) || rows[op.candidateId].status != Pending then
              t == Stepped(s, Unchanged)
            else
              && LineLogged(s, t, s.lastId, LogRecord.RejectCandidate(op.ts, op.candidateId, op.reason, op.decision))
              && (t.status == Committed ==>
                    t.live.db.episodic.candidates == rows[op.candidateId := rows[op.candidateId].(
                      status := Rejected, rejectionReason := Some(op.reason))])
  {
    RejectionIsPlanned(s, op);
    TextChecks(op.reason);
    if PlanRejection(s, op).Write? {
      var r := LogRecord.RejectCandidate(op.ts, op.candidateId, op.reason, op.decision);
      OneLineCall(s, op, s.lastId, r);
      RejectionLineEffect(s.db, r);
    } else {
      NothingLogged(s, op);
    }
  }

  // ----- chunks -----

  lemma WriteChunkCall(s: Live, op: Op)
    requires op.WriteChunk?
    ensures var t, id := Step(s, op), NextId(s, op.tick);
            if op.claimId !in s.db.core.claims || !HasText(op.text) || !HasText(op.model)
              || op.embedding == Some([]) then
              t == Stepped(s, Unchanged)
            else
              && LineLogged(s, t, id, AddVectorChunk(op.ts, id, op.claimId, op.text, op.model, op.embedding))
              && (t.status == Committed ==>
                    && id in t.live.db.core.chunks
                    && var row := t.live.db.core.chunks[id];
                       && row.claimId == op.claimId && row.text == op.text && row.embeddingModel == op.model
                       && row.embedding == op.embedding && row.createdAt == op.ts
                       && t.live.db.core.chunks == s.db.core.chunks[id := row]
                       && Indexed(s.db.core.vectorIndex, t.live.db.core.vectorIndex, id, op.embedding))
  {
    assert !Sweep(op) && !Updating(op);
    assert PlanOf(s, op) == PlanChunk(s, op);
    TextChecks(op.text);
    TextChecks(op.model);
    if PlanChunk(s, op).Write? {
      var id := NextId(s, op.tick);
      var r := AddVectorChunk(op.ts, id, op.claimId, op.text, op.model, op.embedding);
      OneLineCall(s, op, id, r);
      ChunkLineEffect(s.db, r);
    } else {
      NothingLogged(s, op);
    }
  }

  lemma BackfillCall(s: Live, op: Op)
    requires op.Backfill?
    ensures var t, chunks := Step(s, op), s.db.core.chunks;
            if op.chunkId !in chunks || chunks[op.chunkId].embedding.Some? then t == Stepped(s, Unchanged)
            else
              && LineLogged(s, t, s.lastId, EmbedVectorChunk(op.ts, op.chunkId, op.vector))
              && (t.status == Committed ==>
                    && t.live.db.core.chunks == chunks[op.chunkId := chunks[op.chunkId].(embedding := Some(op.vector))]
                    && Indexed(s.db.core.vectorIndex, t.live.db.core.vectorIndex, op.chunkId, Some(op.vector)))
  {
    assert !Sweep(op) && !Minting(op);
    assert PlanOf(s, op) == PlanBackfill(s, op);
    if PlanBackfill(s, op).Write? {
      var r := EmbedVectorChunk(op.ts, op.chunkId, op.vector);
      OneLineCall(s, op, s.lastId, r);
      EmbeddingLineEffect(s.db, r);
    } else {
      NothingLogged(s, op);
    }
  }

  // ----- the decay of INFERRED claims -----

  /** Exactly the ACTIVE INFERRED claims have their confidence multiplied by the factor given for them, if it lies
      between 0 and 1, and nothing else of any row changes. */
  ghost predicate InferredDamped(before: Claims, after: Claims, factors: map<int, real>) {
    && after.Keys == before.Keys
    && forall id :: id in before ==> DampedRow(before[id], after[id], id, factors)
  }

  function Times(c: real, factor: real): real { c * factor }

  ghost predicate DampedRow(was: ClaimRow, row: ClaimRow, id: int, factors: map<int, real>) {
    row == if was.status == Active && was.provenance == Inferred && id in factors && 0.0 <= factors[id] <= 1.0
           then was.(confidence := Times(was.confidence, factors[id])) else was
  }

  lemma InferredDecayCall(s: Live, op: Op)
    requires op.DecayInferred?
    ensures var t, claims := Step(s, op), s.db.core.claims;
            if forall id :: id in claims && claims[id].status == Active ==> claims[id].provenance != Inferred
            then t == Stepped(s, Unchanged)
            else
              && t.live.lastId == s.lastId && t.status != Unchanged
              && (t.status == Committed ==>
                    && t.live.db == s.db.(core := s.db.core.(claims := t.live.db.core.claims))
                    && InferredDamped(claims, t.live.db.core.claims, op.factors))
  {
    assert !Sweep(op) && !Minting(op);
    assert PlanOf(s, op) == PlanInferredDecay(s, op.ts, op.factors);
    var claims := s.db.core.claims;
    var targets := set id | id in claims && claims[id].status == Active && claims[id].provenance == Inferred;
    var ids := Ascending(targets);
    if ids == [] {
      forall id | id in claims && claims[id].status == Active ensures claims[id].provenance != Inferred {
        assert id in targets <==> id in ids;
      }
      NothingLogged(s, op);
    } else {
      var first := ids[0];
      assert first in ids && first in targets;
      var r := DecayConfidence(op.ts, InferredChanges(claims, op.factors, ids));
      OneLineCall(s, op, s.lastId, r);
      DecayLineEffect(s.db, r);
      if ApplyRecord(s.db, r).result == Ok(Applied) {
        ChangedIsDamped(claims, op.factors, ids, ApplyRecord(s.db, r).state.core.claims);
      }
    }
  }

  lemma ChangedIsDamped(claims: Claims, factors: map<int, real>, ids: seq<int>, after: Claims)
    requires AllIn(ids, claims) && Distinct(ids)
    requires forall id :: id in ids <==>
               id in claims && claims[id].status == Active && claims[id].provenance == Inferred
    requires Changed(claims, InferredChanges(claims, factors, ids), after)
    ensures InferredDamped(claims, after, factors)
  {
    forall id | id in claims ensures DampedRow(claims[id], after[id], id, factors) {
      if id in ids {
        var k :| 0 <= k < |ids| && ids[k] == id;
        TargetDamped(claims, factors, ids, after, k);
      } else {
        OtherKept(claims, factors, ids, after, id);
      }
    }
  }

  lemma TargetDamped(claims: Claims, factors: map<int, real>, ids: seq<int>, after: Claims, k: nat)
    requires AllIn(ids, claims) && Distinct(ids) && k < |ids|
    requires claims[ids[k]].status == Active && claims[ids[k]].provenance == Inferred
    requires Changed(claims, InferredChanges(claims, factors, ids), after)
    ensures DampedRow(claims[ids[k]], after[ids[k]], ids[k], factors)
  {
    var changes := InferredChanges(claims, factors, ids);
    forall i, j | 0 <= i < j < |changes| ensures changes[i].claimId != changes[j].claimId { assert ids[i] != ids[j]; }
    LastChange(claims, changes, after, k);
    DampedSays(claims[ids[k]].confidence, factors, ids[k]);
  }

  lemma OtherKept(claims: Claims, factors: map<int, real>, ids: seq<int>, after: Claims, id: int)
    requires AllIn(ids, claims) && id in claims && id !in ids
    requires !(claims[id].status == Active && claims[id].provenance == Inferred)
    requires Changed(claims, InferredChanges(claims, factors, ids), after)
    ensures DampedRow(claims[id], after[id], id, factors)
  {
    var changes := InferredChanges(claims, factors, ids);
    forall k | 0 <= k < |changes| ensures changes[k].claimId != id { assert ids[k] in ids; }
  }

  lemma DampedSays(c: real, factors: map<int, real>, id: int)
    ensures Damped(c, Factor(factors, id)) == if id in factors && 0.0 <= factors[id] <= 1.0
                                         then Times(c, factors[id]) else c
  {
  }

  lemma LastChange(claims: Claims, changes: seq<ConfidenceChange>, after: Claims, k: nat)
    requires Changed(claims, changes, after) && k < |changes| && changes[k].claimId in claims
    requires forall i, j :: 0 <= i < j < |changes| ==> changes[i].claimId != changes[j].claimId
    ensures after[changes[k].claimId] == claims[changes[k].claimId].(confidence := changes[k].confidence)
  {
  }

  // ----- which calls are refused -----

  /** An observation that is there under its hash is known when it says the same, and refused when it does not. */
  ghost predicate OtherUnderHash(rows: map<string, ObservationRow>, op: Op)
    requires op.WriteObservation?
  {
    && op.hash in rows
    && !(rows[op.hash].sessionId == op.session && rows[op.hash].content == op.content
         && rows[op.hash].sourceEventIds == op.eventIds)
  }

  /** The calls that end in an error before a line is written. The passes, and calls that find their work done
      already, are answered without one. */
  ghost predicate TurnedDown(s: Live, op: Op) {
    match op
    case WriteClaim(_, _, w) => !ClaimWelcome(s.db.core, w)
    case WriteHyperedge(_, _, _, _, _, _, _) => !HyperedgeWelcome(s.db.core, op)
    case WriteEvent(_, _, _, _, _, _, _, _, _) => !EventWelcome(op)
    case WriteObservation(_, _, _, _, _, _, _, _) =>
      !ObservationWelcome(s.db.episodic.events, op) || OtherUnderHash(s.db.notes.observations, op)
    case Prune(_, _, session, _) => !HasText(session)
    case Retire(_, id, reason) =>
      !HasText(reason) || id !in s.db.core.claims || s.db.core.claims[id].status == Invalidated
    case Contradict(_, _, id, reason, replaced) =>
      !HasText(reason) || id !in s.db.core.claims || (replaced && (s.lastId !in s.db.core.claims || s.lastId == id))
    case Propose(_, _, _, _, _, _, _) => !ProposalWelcome(s.db.episodic.events, op)
    case Promote(_, _, id, _, _) =>
      || id !in s.db.episodic.candidates || s.db.episodic.candidates[id].status == Rejected
      || (s.db.episodic.candidates[id].promotedClaimId == None && !PromotionWelcome(s, op))
    case Reject(_, id, reason, _) =>
      || id !in s.db.episodic.candidates || !HasText(reason) || s.db.episodic.candidates[id].status == Promoted
      || (s.db.episodic.candidates[id].status == Rejected
          && s.db.episodic.candidates[id].rejectionReason != Some(reason))
    case WriteChunk(_, _, id, text, model, embedding) =>
      id !in s.db.core.claims || !HasText(text) || !HasText(model) || embedding == Some([])
    case _ => false
  }

  ghost predicate ProposalWelcome(events: map<int, EventRow>, op: Op)
    requires op.Propose?
  {
    op.eventId in events && HasText(op.subject) && HasText(op.predicate_) && HasText(op.object_) && ScopeText(op.scope)
  }

  lemma RefusedExactly(s: Live, op: Op)
    ensures PlanOf(s, op) == Refuse <==> TurnedDown(s, op)
  {
    if Sweep(op) { SweepIsPlanned(s, op); }
    else if Minting(op) { MintingRefused(s, op); }
    else { UpdatingRefused(s, op); }
  }

  lemma MintingRefused(s: Live, op: Op)
    requires Minting(op)
    ensures PlanOf(s, op) == Refuse <==> TurnedDown(s, op)
  {
    assert !Sweep(op) && !Updating(op);
    if op.WriteClaim? { ClaimChecks(s.db.core, op.write); }
    else if op.WriteHyperedge? { HyperedgeChecks(s.db.core, op); }
    else if op.WriteEvent? { EventChecks(op); }
    else if op.Contradict? { TextChecks(op.reason); }
    else if op.Promote? { PromotionChecks(s, op); }
    else if op.WriteChunk? { TextChecks(op.text); TextChecks(op.model); }
    else {
      TextChecks(op.subject);
      TextChecks(op.predicate_);
      TextChecks(op.object_);
      TextChecks(op.scope);
    }
  }

  lemma UpdatingRefused(s: Live, op: Op)
    requires Updating(op)
    ensures PlanOf(s, op) == Refuse <==> TurnedDown(s, op)
  {
    assert !Sweep(op) && !Minting(op);
    if op.WriteObservation? { ObservationChecks(s.db.episodic, op); }
    else if op.Prune? { TextChecks(op.session); }
    else if op.Retire? || op.Reject? { TextChecks(op.reason); }
  }
}
