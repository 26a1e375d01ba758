/** What each record kind leaves in the tables, column by column, and when it applies, is a duplicate or fails:
    crates/aver-core/src/apply.rs read row by row, without the row builders and checks of Projection. */
module Effects {
  import opened Prelude
  import opened Records
  import opened Ontology
  import opened Projection
  import opened Consolidation
  import opened Lifecycle
  import opened LogAhead

  // ----- the words of the log -----

  ghost predicate SpellsAgentKind(text: string, kind: AgentKind) {
    match kind
    case Human => text == "HUMAN"
    case Llm => text == "LLM"
    case DeterministicParser => text == "DETERMINISTIC_PARSER"
    case ExternalTool => text == "EXTERNAL_TOOL"
  }

  ghost predicate SpellsProvenance(text: string, p: Provenance) {
    match p
    case UserAsserted => text == "USER_ASSERTED"
    case Extracted => text == "EXTRACTED"
    case Inferred => text == "INFERRED"
    case Ambiguous => text == "AMBIGUOUS"
  }

  /** The provenance a claim line states, or else the one that goes with its agent kind. */
  ghost predicate StatesProvenance(r: LogRecord, kind: AgentKind, p: Provenance)
    requires r.AddClaim?
  {
    match r.provenance
    case Some(text) => SpellsProvenance(text, p)
    case None =>
      || (kind == Human && p == UserAsserted) || (kind == Llm && p == Inferred)
      || ((kind == DeterministicParser || kind == ExternalTool) && p == Extracted)
  }

  ghost predicate KnownAgentKind(text: string) {
    text == "HUMAN" || text == "LLM" || text == "DETERMINISTIC_PARSER" || text == "EXTERNAL_TOOL"
  }

  ghost predicate KnownProvenance(text: string) {
    text == "USER_ASSERTED" || text == "EXTRACTED" || text == "INFERRED" || text == "AMBIGUOUS"
  }

  lemma WordsAreRead(text: string)
    ensures ParseAgentKind(text).Some? <==> KnownAgentKind(text)
    ensures ParseAgentKind(text).Some? ==> SpellsAgentKind(text, ParseAgentKind(text).value)
    ensures ParseProvenance(text).Some? <==> KnownProvenance(text)
    ensures ParseProvenance(text).Some? ==> SpellsProvenance(text, ParseProvenance(text).value)
  {
  }

  lemma WordsAreWritten(kind: AgentKind, p: Provenance)
    ensures SpellsAgentKind(kind.Name(), kind) && SpellsProvenance(p.Name(), p)
  {
  }

  // ----- predicates and entities a line brings along -----

  ghost predicate Named(rows: seq<TypeRow>, name: string) {
    exists i :: 0 <= i < |rows| && rows[i].name == name
  }

  ghost predicate Each<T(!new)>(s: seq<T>) {
    forall i, j :: 0 <= i < j < |s| ==> s[i] != s[j]
  }

  /** The clock is past 1970 and not behind the creation of the entity. */
  ghost predicate ClockFits(entities: map<string, EntityRow>, name: string, ts: int) {
    ts > 0 && (name in entities && entities[name].createdAt > 0 ==> ts >= entities[name].createdAt)
  }

  ghost predicate HasPrefix(types: seq<TypeRow>, entity: string, k: nat) {
    k < |entity| && entity[k] == ':' && ':' !in entity[..k] && Named(types, entity[..k])
  }

  /** The type an entity's name tells: a known word before its first colon, three names of people and bots,
      and Thing for the rest. */
  ghost predicate TypeFits(types: seq<TypeRow>, entity: string, name: string) {
    if exists k: nat :: HasPrefix(types, entity, k) then
      exists k: nat :: HasPrefix(types, entity, k) && name == entity[..k]
    else if entity == "User" && Named(types, "Human") then name == "Human"
    else if (entity == "Claude" || entity == "Pi") && Named(types, "Bot") then name == "Bot"
    else name == "Thing"
  }

  /** What touching leaves of one entity. */
  ghost predicate TouchedRow(types: seq<TypeRow>, entity: string, before: Option<EntityRow>, after: EntityRow,
                             ts: int) {
    && after.lastSeenAt == ts
    && match before
       case None =>
         && after.createdAt == ts && after.typeId < |types| && TypeFits(types, entity, types[after.typeId].name)
         && (after.requiresReview <==> types[after.typeId].name == "Thing")
       case Some(was) =>
         && after.createdAt == was.createdAt
         && if IdOf(types, "Thing") == Some(was.typeId) && !TypeFits(types, entity, "Thing")
            then after.typeId < |types| && TypeFits(types, entity, types[after.typeId].name) && !after.requiresReview
            else after.typeId == was.typeId && after.requiresReview == was.requiresReview
  }

  ghost function RowIn(entities: map<string, EntityRow>, name: string): Option<EntityRow> {
    if name in entities then Some(entities[name]) else None
  }

  lemma FirstColon(entity: string, k: nat)
    requires k < |entity| && entity[k] == ':' && ':' !in entity[..k]
    ensures Prefix(entity) == Some(entity[..k])
  {
    forall i | 0 <= i < k ensures entity[i] != ':' { assert entity[..k][i] in entity[..k]; }
    var p := Prefix(entity).value;
    forall i | 0 <= i < |p| ensures entity[i] != ':' { assert p[i] in p && entity[..|p|][i] == p[i]; }
  }

  lemma TypeIsTold(types: seq<TypeRow>, entity: string)
    requires Named(types, "Thing")
    ensures var name := InferEntityType(types, entity);
            TypeFits(types, entity, if Named(types, name) then name else "Thing")
    ensures forall a, b :: TypeFits(types, entity, a) && TypeFits(types, entity, b) ==> a == b
  {
    forall k: nat | HasPrefix(types, entity, k) ensures Prefix(entity) == Some(entity[..k]) { FirstColon(entity, k); }
    var prefix := Prefix(entity);
    if prefix.Some? && Named(types, prefix.value) {
      assert entity[..|prefix.value|] == prefix.value;
      assert HasPrefix(types, entity, |prefix.value|);
    }
  }

  lemma EntityIsTouched(types: seq<TypeRow>, entities: map<string, EntityRow>, entity: string, ts: int)
    ensures EnsureEntity(types, entities, entity, ts).Ok? <==> Named(types, "Thing") && ClockFits(entities, entity, ts)
    ensures EnsureEntity(types, entities, entity, ts).Ok? ==>
              TouchedOnly(types, entities, EnsureEntity(types, entities, entity, ts).value, entity, ts)
  {
    if EnsureEntity(types, entities, entity, ts).Ok? { RowIsTouched(types, entities, entity, ts); }
  }

  lemma RowIsTouched(types: seq<TypeRow>, entities: map<string, EntityRow>, entity: string, ts: int)
    requires EnsureEntity(types, entities, entity, ts).Ok?
    ensures TouchedOnly(types, entities, EnsureEntity(types, entities, entity, ts).value, entity, ts)
  {
    TypeIsTold(types, entity);
    var thing := IdOf(types, "Thing").value;
    var inferred := IdOf(types, InferEntityType(types, entity));
    var id := if inferred.Some? then inferred.value else thing;
    assert TypeFits(types, entity, types[id].name);
    assert id == thing <==> types[id].name == "Thing";
    var after := EnsureEntity(types, entities, entity, ts).value;
    assert after == entities[entity := after[entity]];
  }

  /** One entity is touched and no other. */
  ghost predicate TouchedOnly(types: seq<TypeRow>, before: map<string, EntityRow>, after: map<string, EntityRow>,
                              entity: string, ts: int) {
    && entity in after && after == before[entity := after[entity]]
    && TouchedRow(types, entity, RowIn(before, entity), after[entity], ts)
  }

  // ----- claims -----

  ghost predicate ClaimFits(core: ClaimTables, r: LogRecord)
    requires r.AddClaim?
  {
    && r.claimId !in core.claims && 0.0 <= r.confidence <= 1.0
    && KnownAgentKind(r.agentKind) && (r.provenance.Some? ==> KnownProvenance(r.provenance.value))
    && (Named(core.vocabulary.rows, r.predicate_) || r.predicate_ in core.vocabulary.aliases
        || Named(core.vocabulary.rows, "relates_to"))
    && Named(core.entityTypes, "Thing")
    && ClockFits(core.entities, r.subject, r.ts) && ClockFits(core.entities, r.object_, r.ts)
  }

  /** The row of a claim line. */
  ghost predicate ClaimSays(row: ClaimRow, r: LogRecord)
    requires r.AddClaim?
  {
    && row.subject == r.subject && row.predicate_ == r.predicate_ && row.object_ == r.object_
    && row.confidence == r.confidence && row.scope == r.scope && row.agentId == r.agentId
    && row.sourceRefs == [r.source] && row.status == Active && row.writeTs == r.ts && row.lastSeenAt == r.ts
    && SpellsAgentKind(r.agentKind, row.agentKind) && StatesProvenance(r, row.agentKind, row.provenance)
  }

  /** What a claim or hyperedge line does to the vocabulary. */
  ghost predicate VocabularyAfter(before: ClaimTables, after: ClaimTables, predicate_: string, asserted: bool,
                                  agentId: string, ts: int) {
    var rows, more := before.vocabulary.rows, after.vocabulary.rows;
    if Named(rows, predicate_) || predicate_ in before.vocabulary.aliases then
      after.vocabulary == before.vocabulary && after.extensions == before.extensions
    else
      && |more| == |rows| + 1 && more[..|rows|] == rows
      && more[|rows|].name == predicate_ && more[|rows|].parent == IdOf(rows, "relates_to")
      && !more[|rows|].single && more[|rows|].createdAt == Some(ts)
      && more[|rows|].createdVia == (if asserted then "user_assertion" else "replay")
      && after.vocabulary.aliases == before.vocabulary.aliases && after.vocabulary.closure == Closure(more)
      && after.extensions == before.extensions + [Extension(predicate_, agentId, ts)]
  }

  lemma PredicateIsKnown(core: ClaimTables, predicate_: string, p: Provenance, agentId: string, ts: int)
    requires ts > 0
    ensures var o := EnsurePredicateKnown(core, predicate_, p, agentId, ts);
            && (o.result.Ok? <==> Named(core.vocabulary.rows, predicate_) || predicate_ in core.vocabulary.aliases
                                  || Named(core.vocabulary.rows, "relates_to"))
            && (o.result.Ok? ==> VocabularyAfter(core, o.state, predicate_, p == UserAsserted, agentId, ts))
  {
  }

  ghost predicate TouchedTwice(types: seq<TypeRow>, before: map<string, EntityRow>, after: map<string, EntityRow>,
                               subject: string, object_: string, ts: int) {
    exists first :: TouchedOnly(types, before, first, subject, ts) && TouchedOnly(types, first, after, object_, ts)
  }

  lemma BothEndsTouched(core: ClaimTables, subject: string, object_: string, ts: int)
    ensures var o := TouchBoth(core, subject, object_, ts);
            && (o.result.Ok? <==> Named(core.entityTypes, "Thing")
                                  && ClockFits(core.entities, subject, ts) && ClockFits(core.entities, object_, ts))
            && (o.result.Ok? ==> TouchedTwice(core.entityTypes, core.entities, o.state.entities, subject, object_, ts))
  {
    EntityIsTouched(core.entityTypes, core.entities, subject, ts);
    var first := EnsureEntity(core.entityTypes, core.entities, subject, ts);
    if first.Ok? {
      assert TouchedOnly(core.entityTypes, core.entities, first.value, subject, ts);
      EntityIsTouched(core.entityTypes, first.value, object_, ts);
      SameClock(core.entityTypes, core.entities, first.value, subject, object_, ts);
    }
  }

  lemma SameClock(types: seq<TypeRow>, before: map<string, EntityRow>, after: map<string, EntityRow>, entity: string,
                  other: string, ts: int)
    requires TouchedOnly(types, before, after, entity, ts) && ClockFits(before, entity, ts)
    ensures ClockFits(after, other, ts) <==> ClockFits(before, other, ts)
  {
  }

  lemma InsertedClaim(core: ClaimTables, r: LogRecord, kind: AgentKind, p: Provenance)
    requires r.AddClaim? && r.claimId !in core.claims
    ensures var o := InsertClaim(core, r, kind, p);
            && (o.result.Ok? <==>
                  && 0.0 <= r.confidence <= 1.0 && Named(core.entityTypes, "Thing")
                  && (Named(core.vocabulary.rows, r.predicate_) || r.predicate_ in core.vocabulary.aliases
                      || Named(core.vocabulary.rows, "relates_to"))
                  && ClockFits(core.entities, r.subject, r.ts) && ClockFits(core.entities, r.object_, r.ts))
            && (o.result.Ok? ==>
                  && VocabularyAfter(core, o.state, r.predicate_, p == UserAsserted, r.agentId, r.ts)
                  && TouchedTwice(core.entityTypes, core.entities, o.state.entities, r.subject, r.object_, r.ts))
  {
    var known := EnsurePredicateKnown(core, r.predicate_, p, r.agentId, r.ts);
    if r.ts > 0 { PredicateIsKnown(core, r.predicate_, p, r.agentId, r.ts); }
    BothEndsTouched(known.state, r.subject, r.object_, r.ts);
  }

  /** A claim line applies exactly when its id is new, its words are known, its confidence is in range and the
      clock fits both entities; it then says in its row what the line says. */
  lemma ClaimLineEffect(db: Database, r: LogRecord)
    requires r.AddClaim?
    ensures var o := ApplyRecord(db, r);
            && (o.result == Ok(Applied) <==> ClaimFits(db.core, r))
            && (o.result == Ok(Applied) ==>
                  && r.claimId in o.state.core.claims && ClaimSays(o.state.core.claims[r.claimId], r)
                  && o.state.core.claims == db.core.claims[r.claimId := o.state.core.claims[r.claimId]]
                  && VocabularyAfter(db.core, o.state.core, r.predicate_,
                                     o.state.core.claims[r.claimId].provenance == UserAsserted, r.agentId, r.ts)
                  && TouchedTwice(db.core.entityTypes, db.core.entities, o.state.core.entities, r.subject, r.object_,
                                  r.ts)
                  && o.state == db.(core := db.core.(claims := o.state.core.claims, entities := o.state.core.entities,
                                                     vocabulary := o.state.core.vocabulary,
                                                     extensions := o.state.core.extensions)))
  {
    WordsAreRead(r.agentKind);
    if r.provenance.Some? { WordsAreRead(r.provenance.value); }
    var kind := ParseAgentKind(r.agentKind);
    if kind.Some? && r.claimId !in db.core.claims {
      var p := StatedProvenance(r, kind.value);
      if p.Some? { InsertedClaim(db.core, r, kind.value, p.value); }
    }
  }

  /** The same id again: a duplicate when it says the same of the same things in the same name and scope, whatever
      its confidence, source and provenance. */
  lemma KnownClaimLine(db: Database, r: LogRecord)
    requires r.AddClaim? && r.claimId in db.core.claims
    ensures var o, row := ApplyRecord(db, r), db.core.claims[r.claimId];
            && o.state == db && o.result != Ok(Applied)
            && (o.result == Ok(Duplicate) <==>
                  && row.subject == r.subject && row.predicate_ == r.predicate_ && row.object_ == r.object_
                  && row.agentId == r.agentId && SpellsAgentKind(r.agentKind, row.agentKind) && row.scope == r.scope
                  && (r.provenance.Some? ==> KnownProvenance(r.provenance.value)))
  {
    WordsAreRead(r.agentKind);
    WordsAreWritten(db.core.claims[r.claimId].agentKind, Inferred);
    if r.provenance.Some? { WordsAreRead(r.provenance.value); }
  }

  // ----- hyperedges -----

  ghost predicate HyperedgeSays(row: HyperedgeRow, r: LogRecord)
    requires r.AddHyperedge?
  {
    && row.predicate_ == r.predicate_ && SpellsProvenance(r.provenanceName, row.provenance)
    && row.confidence == r.confidence && row.sourceRefs == r.sourceRefs && row.createdAt == r.ts
    && row.participants == r.participants
  }

  ghost predicate HyperedgeFits(core: ClaimTables, r: LogRecord)
    requires r.AddHyperedge?
  {
    && r.hyperedgeId !in core.hyperedges && 0.0 <= r.confidence <= 1.0 && KnownProvenance(r.provenanceName) && r.ts > 0
    && Each(r.sourceRefs) && Each(r.participants)
    && (Named(core.vocabulary.rows, r.predicate_) || r.predicate_ in core.vocabulary.aliases
        || Named(core.vocabulary.rows, "relates_to"))
    && AllFit(core, r.participants, r.ts)
  }

  /** Entities that take part are touched, the others stay. */
  ghost predicate AllTouched(types: seq<TypeRow>, before: map<string, EntityRow>, after: map<string, EntityRow>,
                             participants: seq<Participant>, ts: int)
    decreases |participants|
  {
    if participants == [] then after == before
    else exists first :: TouchedOnly(types, before, first, participants[0].entity, ts)
                         && AllTouched(types, first, after, participants[1..], ts)
  }

  ghost predicate AllFit(core: ClaimTables, participants: seq<Participant>, ts: int) {
    && (participants != [] ==> Named(core.entityTypes, "Thing"))
    && forall k :: 0 <= k < |participants| ==> ClockFits(core.entities, participants[k].entity, ts)
  }

  lemma {:induction false} ParticipantsIn(core: ClaimTables, id: int, participants: seq<Participant>, ts: int)
    requires id in core.hyperedges && NoRepeats(core.hyperedges[id].participants) && ts > 0
    ensures var o := AddParticipants(core, id, participants, ts);
            && (o.result.Ok? <==>
                Each(core.hyperedges[id].participants + participants) && AllFit(core, participants, ts))
            && (o.result.Ok? ==> AllTouched(core.entityTypes, core.entities, o.state.entities, participants, ts))
    decreases |participants|
  {
    var have := core.hyperedges[id].participants;
    if participants == [] {
      assert have + participants == have;
    } else {
      var p, rest := participants[0], participants[1..];
      RepeatsSplit(have, participants);
      FirstIn(core, id, p, ts);
      var first := AddParticipant(core, id, p, ts);
      if first.result.Ok? {
        var now := first.state;
        ParticipantsIn(now, id, rest, ts);
        RestFits(core, now, participants, ts);
        assert now.hyperedges[id].participants + rest == have + participants;
      }
    }
  }

  lemma FirstIn(core: ClaimTables, id: int, p: Participant, ts: int)
    requires id in core.hyperedges
    ensures var o := AddParticipant(core, id, p, ts);
            && (o.result.Ok? <==>
                  p !in core.hyperedges[id].participants && Named(core.entityTypes, "Thing")
                  && ClockFits(core.entities, p.entity, ts))
            && (o.result.Ok? ==> TouchedOnly(core.entityTypes, core.entities, o.state.entities, p.entity, ts))
  {
    EntityIsTouched(core.entityTypes, core.entities, p.entity, ts);
  }

  lemma RestFits(core: ClaimTables, now: ClaimTables, participants: seq<Participant>, ts: int)
    requires participants != [] && now.entityTypes == core.entityTypes && Named(core.entityTypes, "Thing")
    requires TouchedOnly(core.entityTypes, core.entities, now.entities, participants[0].entity, ts)
    requires ClockFits(core.entities, participants[0].entity, ts)
    ensures AllFit(core, participants, ts) <==> AllFit(now, participants[1..], ts)
  {
    var p, rest := participants[0], participants[1..];
    assert forall k :: 0 < k < |participants| ==> participants[k] == rest[k - 1];
    forall k | 0 <= k < |rest|
      ensures ClockFits(now.entities, rest[k].entity, ts) <==> ClockFits(core.entities, rest[k].entity, ts)
    {
      SameClock(core.entityTypes, core.entities, now.entities, p.entity, rest[k].entity, ts);
    }
  }

  /** Beside its row, a hyperedge line brings along its predicate and touches its participants' entities. */
  ghost predicate HyperedgeRest(before: ClaimTables, after: ClaimTables, r: LogRecord)
    requires r.AddHyperedge? && r.hyperedgeId in after.hyperedges
  {
    && VocabularyAfter(before, after, r.predicate_, after.hyperedges[r.hyperedgeId].provenance == UserAsserted,
                       "local", r.ts)
    && AllTouched(before.entityTypes, before.entities, after.entities, r.participants, r.ts)
    && after == before.(hyperedges := after.hyperedges, entities := after.entities, vocabulary := after.vocabulary,
                        extensions := after.extensions)
  }

  /** The row, the predicate, the entities, and nothing else. */
  ghost predicate HyperedgeIn(before: ClaimTables, after: ClaimTables, r: LogRecord)
    requires r.AddHyperedge?
  {
    && r.hyperedgeId in after.hyperedges && HyperedgeSays(after.hyperedges[r.hyperedgeId], r)
    && after.hyperedges == before.hyperedges[r.hyperedgeId := after.hyperedges[r.hyperedgeId]]
    && HyperedgeRest(before, after, r)
  }

  lemma InsertedHyperedge(core: ClaimTables, r: LogRecord, p: Provenance)
    requires r.AddHyperedge? && r.hyperedgeId !in core.hyperedges && SpellsProvenance(r.provenanceName, p)
    requires KnownProvenance(r.provenanceName)
    ensures var o := InsertHyperedge(core, r, p);
            && (o.result.Ok? <==> HyperedgeFits(core, r)) && (o.result.Ok? ==> HyperedgeIn(core, o.state, r))
  {
    var known := EnsurePredicateKnown(core, r.predicate_, p, "local", r.ts);
    if r.ts > 0 {
      PredicateIsKnown(core, r.predicate_, p, "local", r.ts);
      if known.result.Ok? && Within(r.confidence) && NoRepeats(r.sourceRefs) {
        InsertedEdgeRows(core, r, p, known.state);
      }
    }
  }

  lemma InsertedEdgeRows(core: ClaimTables, r: LogRecord, p: Provenance, known: ClaimTables)
    requires r.AddHyperedge? && r.hyperedgeId !in core.hyperedges && SpellsProvenance(r.provenanceName, p) && r.ts > 0
    requires known == core.(vocabulary := known.vocabulary, extensions := known.extensions)
    requires VocabularyAfter(core, known, r.predicate_, p == UserAsserted, "local", r.ts)
    ensures var o := InsertEdgeRows(known, r, HyperedgeRow(r.predicate_, p, r.confidence, r.sourceRefs, r.ts, []));
            && (o.result.Ok? <==> Each(r.participants) && AllFit(core, r.participants, r.ts))
            && (o.result.Ok? ==> HyperedgeIn(core, o.state, r))
  {
    EdgeRowsIn(known, r, HyperedgeRow(r.predicate_, p, r.confidence, r.sourceRefs, r.ts, []));
  }

  lemma EdgeRowsIn(core: ClaimTables, r: LogRecord, edge: HyperedgeRow)
    requires r.AddHyperedge? && edge.participants == [] && r.ts > 0
    ensures var o := InsertEdgeRows(core, r, edge);
            && (o.result.Ok? <==> Each(r.participants) && AllFit(core, r.participants, r.ts))
            && (o.result.Ok? ==> AllTouched(core.entityTypes, core.entities, o.state.entities, r.participants, r.ts))
  {
    assert [] + r.participants == r.participants;
    ParticipantsIn(core.(hyperedges := core.hyperedges[r.hyperedgeId := edge]), r.hyperedgeId, r.participants, r.ts);
  }

  /** A hyperedge line applies exactly when its id is new, its words are known, its confidence is in range, no
      reference or participant comes twice and the clock fits every participant. */
  lemma HyperedgeLineEffect(db: Database, r: LogRecord)
    requires r.AddHyperedge?
    ensures var o := ApplyRecord(db, r);
            && (o.result == Ok(Applied) <==> HyperedgeFits(db.core, r))
            && (o.result == Ok(Applied) ==>
                HyperedgeIn(db.core, o.state.core, r) && o.state == db.(core := o.state.core))
  {
    NewHyperedge(db.core, r);
  }

  lemma NewHyperedge(core: ClaimTables, r: LogRecord)
    requires r.AddHyperedge?
    ensures var o := ApplyAddHyperedge(core, r);
            && (o.result == Ok(Applied) <==> HyperedgeFits(core, r))
            && (o.result == Ok(Applied) ==> HyperedgeIn(core, o.state, r))
  {
    WordsAreRead(r.provenanceName);
    if KnownProvenance(r.provenanceName) && r.hyperedgeId !in core.hyperedges {
      var p := ParseProvenance(r.provenanceName).value;
      NeverADuplicate(core, r, p);
      InsertedHyperedge(core, r, p);
    } else {
      NoNewHyperedge(core, r);
    }
  }

  lemma NeverADuplicate(core: ClaimTables, r: LogRecord, p: Provenance)
    requires r.AddHyperedge? && r.hyperedgeId !in core.hyperedges && ParseProvenance(r.provenanceName) == Some(p)
    ensures ApplyAddHyperedge(core, r) == InsertHyperedge(core, r, p)
    ensures InsertHyperedge(core, r, p).result.Ok? <==> InsertHyperedge(core, r, p).result == Ok(Applied)
  {
    AppliedOrNot(InsertHyperedge(core, r, p).result);
  }

  lemma AppliedOrNot(result: Result<Applied, Projection.Error>)
    requires result != Ok(Duplicate)
    ensures result.Ok? <==> result == Ok(Applied)
  {
    match result {
      case Ok(applied) => assert applied == Applied || applied == Duplicate;
      case Err(_) =>
    }
  }

  lemma NoNewHyperedge(core: ClaimTables, r: LogRecord)
    requires r.AddHyperedge? && (!KnownProvenance(r.provenanceName) || r.hyperedgeId in core.hyperedges)
    ensures ApplyAddHyperedge(core, r).result != Ok(Applied) && !HyperedgeFits(core, r)
  {
    WordsAreRead(r.provenanceName);
  }

  lemma KnownHyperedgeLine(db: Database, r: LogRecord)
    requires r.AddHyperedge? && r.hyperedgeId in db.core.hyperedges
    ensures var o, row := ApplyRecord(db, r), db.core.hyperedges[r.hyperedgeId];
            && o.state == db && o.result != Ok(Applied)
            && (o.result == Ok(Duplicate) <==>
                  && row.predicate_ == r.predicate_ && SpellsProvenance(r.provenanceName, row.provenance)
                  && -0.000000001 < row.confidence - r.confidence < 0.000000001
                  && row.sourceRefs == r.sourceRefs && row.participants == r.participants)
  {
    WordsAreRead(r.provenanceName);
    WordsAreWritten(Human, db.core.hyperedges[r.hyperedgeId].provenance);
  }

  // ----- lines about claims that are there -----

  ghost predicate OnlyRow(before: Claims, after: Claims, id: int) {
    id in before && id in after && after == before[id := after[id]]
  }

  /** Everything but the named columns is as it was. */
  ghost predicate KeepsWords(was: ClaimRow, row: ClaimRow) {
    && row.subject == was.subject && row.predicate_ == was.predicate_ && row.object_ == was.object_
    && row.agentId == was.agentId && row.agentKind == was.agentKind && row.writeTs == was.writeTs
    && row.scope == was.scope
  }

  /** A retirement: the claim is invalidated, its time and a marker noted; again with the same reason it is a
      duplicate. */
  lemma RetireLineEffect(db: Database, r: LogRecord)
    requires r.RetireClaim?
    ensures var o, claims := ApplyRecord(db, r), db.core.claims;
            && (o.result == Ok(Applied) <==>
                  && r.claimId in claims && claims[r.claimId].status != Invalidated
                  && ("retired:" + r.reason) !in claims[r.claimId].sourceRefs && Each(claims[r.claimId].sourceRefs)
                  && r.ts > 0 && (claims[r.claimId].writeTs > 0 ==> r.ts >= claims[r.claimId].writeTs))
            && (o.result == Ok(Duplicate) <==>
                  r.claimId in claims && claims[r.claimId].status == Invalidated
                  && ("retired:" + r.reason) in claims[r.claimId].sourceRefs)
            && (o.result != Ok(Applied) ==> o.state == db)
            && (o.result == Ok(Applied) ==>
                  && o.state == db.(core := db.core.(claims := o.state.core.claims))
                  && OnlyRow(claims, o.state.core.claims, r.claimId)
                  && var was, row := claims[r.claimId], o.state.core.claims[r.claimId];
                     && KeepsWords(was, row) && row.provenance == was.provenance && row.confidence == was.confidence
                     && row.status == Invalidated && row.lastSeenAt == r.ts
                     && row.sourceRefs == was.sourceRefs + ["retired:" + r.reason])
  {
    if r.claimId in db.core.claims {
      var refs, marker := db.core.claims[r.claimId].sourceRefs, "retired:" + r.reason;
      assert Marker(r.reason) == marker;
      OneMoreRef(refs, marker);
    }
  }

  lemma OneMoreRef(refs: seq<string>, ref: string)
    ensures NoRepeats(refs + [ref]) <==> Each(refs) && ref !in refs
  {
    var more := refs + [ref];
    assert more[|refs|] == ref;
    assert forall k :: 0 <= k < |refs| ==> more[k] == refs[k];
  }

  lemma ContradictionLineEffect(db: Database, r: LogRecord)
    requires r.AddContradiction?
    ensures var o, rows := ApplyRecord(db, r), db.core.contradictions;
            && (o.result == Ok(Applied) <==>
                  && r.contradictionId !in rows && r.claimId in db.core.claims && r.ts > 0
                  && (r.newClaimId.Some? ==> r.newClaimId.value in db.core.claims && r.newClaimId.value != r.claimId))
            && (o.result == Ok(Duplicate) <==>
                  && r.contradictionId in rows && rows[r.contradictionId].claimId == r.claimId
                  && rows[r.contradictionId].reason == r.reason && rows[r.contradictionId].newClaimId == r.newClaimId)
            && (o.result != Ok(Applied) ==> o.state == db)
            && (o.result == Ok(Applied) ==>
                  && r.contradictionId in o.state.core.contradictions
                  && var row := o.state.core.contradictions[r.contradictionId];
                     && row.claimId == r.claimId && row.reason == r.reason && row.newClaimId == r.newClaimId
                     && row.createdAt == r.ts
                     && o.state == db.(core := db.core.(contradictions := rows[r.contradictionId := row])))
  {
  }

  /** The listed claims are SUPERSEDED afterwards; a missing one fails the line. */
  lemma SupersedeLineEffect(db: Database, r: LogRecord)
    requires r.SupersedeClaims?
    ensures var o, claims := ApplyRecord(db, r), db.core.claims;
            && (o.result == Ok(Applied) <==> forall k :: 0 <= k < |r.claimIds| ==> r.claimIds[k] in claims)
            && o.result != Ok(Duplicate)
            && (o.result == Ok(Applied) ==>
                  && o.state == db.(core := db.core.(claims := o.state.core.claims))
                  && o.state.core.claims.Keys == claims.Keys
                  && forall id :: id in claims ==>
                       o.state.core.claims[id] ==
                         if id in r.claimIds then claims[id].(status := Superseded) else claims[id])
  {
    if forall k :: 0 <= k < |r.claimIds| ==> r.claimIds[k] in db.core.claims {
      SupersedeIsPointwise(db.core.claims, r.claimIds);
    } else if ApplySupersede(db.core.claims, r.claimIds).result.Ok? {
      SupersedeNeedsItsIds(db.core.claims, r.claimIds);
    }
    SupersedeNeverRepeats(db.core.claims, r.claimIds);
  }

  lemma SupersedeNeverRepeats(claims: Claims, ids: seq<int>)
    ensures ApplySupersede(claims, ids).result != Ok(Duplicate)
    decreases |ids|
  {
  }

  /** Every listed claim ends with the last confidence listed for it. */
  lemma DecayLineEffect(db: Database, r: LogRecord)
    requires r.DecayConfidence?
    ensures var o, claims := ApplyRecord(db, r), db.core.claims;
            && (o.result == Ok(Applied) <==> forall k :: 0 <= k < |r.changes| ==>
                  r.changes[k].claimId in claims && 0.0 <= r.changes[k].confidence <= 1.0)
            && o.result != Ok(Duplicate)
            && (o.result == Ok(Applied) ==>
                  && o.state == db.(core := db.core.(claims := o.state.core.claims))
                  && Changed(claims, r.changes, o.state.core.claims))
  {
    DecayGoes(db.core.claims, r.changes);
  }

  ghost predicate Changed(before: Claims, changes: seq<ConfidenceChange>, after: Claims) {
    && after.Keys == before.Keys
    && (forall k :: 0 <= k < |changes| && changes[k].claimId in after
                    && (forall j :: k < j < |changes| ==> changes[j].claimId != changes[k].claimId) ==>
          after[changes[k].claimId] == before[changes[k].claimId].(confidence := changes[k].confidence))
    && forall id :: id in before && (forall k :: 0 <= k < |changes| ==> changes[k].claimId != id) ==>
        after[id] == before[id]
  }

  lemma {:induction false} DecayGoes(claims: Claims, changes: seq<ConfidenceChange>)
    ensures var o := ApplyDecay(claims, changes);
            && (o.result == Ok(Applied) <==> forall k :: 0 <= k < |changes| ==>
                  changes[k].claimId in claims && 0.0 <= changes[k].confidence <= 1.0)
            && o.result != Ok(Duplicate) && (o.result == Ok(Applied) ==> Changed(claims, changes, o.state))
    decreases |changes|
  {
    if changes != [] {
      var first, rest := changes[0], changes[1..];
      assert forall k :: 0 <= k < |rest| ==> rest[k] == changes[k + 1];
      if first.claimId in claims && Within(first.confidence) {
        var next := claims[first.claimId := claims[first.claimId].(confidence := first.confidence)];
        DecayGoes(next, rest);
        assert next.Keys == claims.Keys;
        if ApplyDecay(next, rest).result == Ok(Applied) {
          FirstChange(claims, changes, next, ApplyDecay(next, rest).state);
        }
      }
    }
  }

  lemma FirstChange(claims: Claims, changes: seq<ConfidenceChange>, next: Claims, after: Claims)
    requires changes != [] && changes[0].claimId in claims
    requires next == claims[changes[0].claimId := claims[changes[0].claimId].(confidence := changes[0].confidence)]
    requires Changed(next, changes[1..], after)
    ensures Changed(claims, changes, after)
  {
    var rest := changes[1..];
    assert forall k :: 0 < k < |changes| ==> changes[k] == rest[k - 1];
    forall k | 0 <= k < |changes| && changes[k].claimId in after
               && (forall j :: k < j < |changes| ==> changes[j].claimId != changes[k].claimId)
      ensures after[changes[k].claimId] == claims[changes[k].claimId].(confidence := changes[k].confidence)
    {
      if k == 0 {
        assert forall j :: 0 <= j < |rest| ==> rest[j] == changes[j + 1];
      } else {
        assert rest[k - 1] == changes[k];
        assert forall j :: k - 1 < j < |rest| ==> rest[j] == changes[j + 1];
      }
    }
    forall id | id in claims && (forall k :: 0 <= k < |changes| ==> changes[k].claimId != id)
      ensures after[id] == claims[id] {
      assert forall k :: 0 <= k < |rest| ==> rest[k] == changes[k + 1];
    }
  }

  /** A merge line: the references replace the claim's; promoted, it is EXTRACTED at 0.75 at least. */
  lemma MergeLineEffect(db: Database, r: LogRecord)
    requires r.MergeSourceRefs?
    ensures var o, claims := ApplyRecord(db, r), db.core.claims;
            && (o.result == Ok(Applied) <==> r.claimId in claims && Each(r.sourceRefs))
            && o.result != Ok(Duplicate) && (o.result != Ok(Applied) ==> o.state == db)
            && (o.result == Ok(Applied) ==>
                  && o.state == db.(core := db.core.(claims := o.state.core.claims))
                  && OnlyRow(claims, o.state.core.claims, r.claimId)
                  && var was, row := claims[r.claimId], o.state.core.claims[r.claimId];
                     && KeepsWords(was, row) && row.status == was.status && row.lastSeenAt == was.lastSeenAt
                     && row.sourceRefs == r.sourceRefs
                     && (r.promote ==> row.provenance == Extracted
                                       && row.confidence == if was.confidence > 0.75 then was.confidence else 0.75)
                     && (!r.promote ==> row.provenance == was.provenance && row.confidence == was.confidence))
  {
  }

  // ----- chunks -----

  /** An embedding of 768 numbers enters the vector index under its chunk, once. */
  ghost predicate Indexed(before: map<int, seq<real>>, after: map<int, seq<real>>, id: int,
                          embedding: Option<seq<real>>) {
    if embedding.Some? && |embedding.value| == 768 && id !in before then after == before[id := embedding.value]
    else after == before
  }

  lemma ChunkLineEffect(db: Database, r: LogRecord)
    requires r.AddVectorChunk?
    ensures var o, chunks := ApplyRecord(db, r), db.core.chunks;
            && (o.result == Ok(Applied) <==>
                  r.chunkId !in chunks && r.claimId in db.core.claims && r.embedding != Some([]) && r.ts > 0)
            && (o.result == Ok(Duplicate) <==>
                  && r.chunkId in chunks && chunks[r.chunkId].claimId == r.claimId && chunks[r.chunkId].text == r.text
                  && chunks[r.chunkId].embeddingModel == r.embeddingModel && chunks[r.chunkId].embedding == r.embedding)
            && (o.result != Ok(Applied) ==> o.state == db)
            && (o.result == Ok(Applied) ==>
                  && r.chunkId in o.state.core.chunks
                  && var row := o.state.core.chunks[r.chunkId];
                     && row.claimId == r.claimId && row.text == r.text && row.embeddingModel == r.embeddingModel
                     && row.embedding == r.embedding && row.createdAt == r.ts
                     && Indexed(db.core.vectorIndex, o.state.core.vectorIndex, r.chunkId, r.embedding)
                     && o.state == db.(core := db.core.(chunks := chunks[r.chunkId := row],
                                                        vectorIndex := o.state.core.vectorIndex)))
  {
  }

  lemma EmbeddingLineEffect(db: Database, r: LogRecord)
    requires r.EmbedVectorChunk?
    ensures var o, chunks := ApplyRecord(db, r), db.core.chunks;
            && (o.result == Ok(Applied) <==>
                  r.chunkId in chunks && chunks[r.chunkId].embedding == None && r.newEmbedding != [])
            && (o.result == Ok(Duplicate) <==>
                  r.chunkId in chunks && chunks[r.chunkId].embedding == Some(r.newEmbedding))
            && (o.result != Ok(Applied) ==> o.state == db)
            && (o.result == Ok(Applied) ==>
                  && Indexed(db.core.vectorIndex, o.state.core.vectorIndex, r.chunkId, Some(r.newEmbedding))
                  && o.state == db.(core := db.core.(
                       chunks := chunks[r.chunkId := chunks[r.chunkId].(embedding := Some(r.newEmbedding))],
                       vectorIndex := o.state.core.vectorIndex)))
  {
  }

  // ----- the event log -----

  lemma EventLineEffect(db: Database, r: LogRecord)
    requires r.RecordEvent?
    ensures var o, rows := ApplyRecord(db, r), db.episodic.events;
            && (o.result == Ok(Applied) <==> r.eventId !in rows && KnownAgentKind(r.agentKind) && r.ts > 0)
            && (o.result == Ok(Duplicate) <==>
                  && r.eventId in rows && rows[r.eventId].sessionId == r.sessionId
                  && rows[r.eventId].kind == r.eventKind
                  && rows[r.eventId].payload == r.payload && rows[r.eventId].source == r.source
                  && rows[r.eventId].agentId == r.agentId && SpellsAgentKind(r.agentKind, rows[r.eventId].agentKind))
            && (o.result != Ok(Applied) ==> o.state == db)
            && (o.result == Ok(Applied) ==>
                  && r.eventId in o.state.episodic.events
                  && var row := o.state.episodic.events[r.eventId];
                     && row.sessionId == r.sessionId && row.kind == r.eventKind && row.payload == r.payload
                     && row.source == r.source && row.agentId == r.agentId
                     && SpellsAgentKind(r.agentKind, row.agentKind)
                     && row.ts == r.ts && row.scope == r.scope
                     && o.state == db.(episodic := db.episodic.(events := rows[r.eventId := row])))
  {
    WordsAreRead(r.agentKind);
    if r.eventId in db.episodic.events { WordsAreWritten(db.episodic.events[r.eventId].agentKind, Inferred); }
  }

  lemma ProposalLineEffect(db: Database, r: LogRecord)
    requires r.ProposeCandidate?
    ensures var o, rows := ApplyRecord(db, r), db.episodic.candidates;
            && (o.result == Ok(Applied) <==> r.candidateId !in rows && r.eventId in db.episodic.events && r.ts > 0)
            && (o.result == Ok(Duplicate) <==>
                  && r.candidateId in rows && rows[r.candidateId].eventId == r.eventId
                  && rows[r.candidateId].subject == r.subject && rows[r.candidateId].predicate_ == r.predicate_
                  && rows[r.candidateId].object_ == r.object_ && rows[r.candidateId].scope == r.scope)
            && (o.result != Ok(Applied) ==> o.state == db)
            && (o.result == Ok(Applied) ==>
                  && r.candidateId in o.state.episodic.candidates
                  && var row := o.state.episodic.candidates[r.candidateId];
                     && row.eventId == r.eventId && row.subject == r.subject && row.predicate_ == r.predicate_
                     && row.object_ == r.object_ && row.status == Pending && row.promotedClaimId == None
                     && row.rejectionReason == None && row.createdAt == r.ts && row.scope == r.scope
                     && o.state == db.(episodic := db.episodic.(candidates := rows[r.candidateId := row])))
  {
  }

  /** A decision on the line, if there is one, names a model and this choice. */
  ghost predicate Decides(decision: Option<Decision>, choice: string) {
    match decision
    case None => true
    case Some(d) => d.choice == choice && exists i :: 0 <= i < |d.model| && !IsWhitespace(d.model[i])
  }

  lemma DecisionsRead(decision: Option<Decision>, choice: string)
    ensures DecisionFits(decision, choice) <==> Decides(decision, choice)
  {
  }

  lemma PromotionLineEffect(db: Database, r: LogRecord)
    requires r.PromoteCandidate?
    ensures var o, rows := ApplyRecord(db, r), db.episodic.candidates;
            && (o.result == Ok(Applied) <==>
                  && r.candidateId in rows && rows[r.candidateId].status == Pending && r.claimId in db.core.claims
                  && Decides(r.decision, "promote"))
            && (o.result == Ok(Duplicate) <==>
                  && r.candidateId in rows && rows[r.candidateId].status == Promoted
                  && rows[r.candidateId].promotedClaimId == Some(r.claimId) && Decides(r.decision, "promote"))
            && (o.result != Ok(Applied) ==> o.state == db)
            && (o.result == Ok(Applied) ==>
                  && r.candidateId in o.state.episodic.candidates
                  && var was, row := rows[r.candidateId], o.state.episodic.candidates[r.candidateId];
                     && row.status == Promoted && row.promotedClaimId == Some(r.claimId)
                     && row.(status := was.status, promotedClaimId := was.promotedClaimId) == was
                     && o.state == db.(episodic := db.episodic.(candidates := rows[r.candidateId := row])))
  {
    DecisionsRead(r.decision, "promote");
  }

  lemma RejectionLineEffect(db: Database, r: LogRecord)
    requires r.RejectCandidate?
    ensures var o, rows := ApplyRecord(db, r), db.episodic.candidates;
            && (o.result == Ok(Applied) <==>
                  r.candidateId in rows && rows[r.candidateId].status == Pending && Decides(r.decision, "reject"))
            && (o.result == Ok(Duplicate) <==>
                  && r.candidateId in rows && rows[r.candidateId].status == Rejected
                  && rows[r.candidateId].rejectionReason == Some(r.reason) && Decides(r.decision, "reject"))
            && (o.result != Ok(Applied) ==> o.state == db)
            && (o.result == Ok(Applied) ==>
                  && r.candidateId in o.state.episodic.candidates
                  && var was, row := rows[r.candidateId], o.state.episodic.candidates[r.candidateId];
                     && row.status == Rejected && row.rejectionReason == Some(r.reason)
                     && row.(status := was.status, rejectionReason := was.rejectionReason) == was
                     && o.state == db.(episodic := db.episodic.(candidates := rows[r.candidateId := row])))
  {
    DecisionsRead(r.decision, "reject");
  }

  // ----- the observation log -----

  lemma ObservationLineEffect(db: Database, r: LogRecord)
    requires r.RecordObservation?
    ensures var o, rows := ApplyRecord(db, r), db.notes.observations;
            && (o.result == Ok(Applied) <==>
                  && r.observationId !in rows && KnownAgentKind(r.agentKind) && Each(r.sourceEventIds) && r.ts > 0
                  && (r.relevance == "low" || r.relevance == "medium" || r.relevance == "high"
                    || r.relevance == "critical"))
            && (o.result == Ok(Duplicate) <==>
                  && r.observationId in rows
                  && var row := rows[r.observationId];
                     && row.sessionId == r.sessionId && row.content == r.content && row.relevance == r.relevance
                     && row.sourceEventIds == r.sourceEventIds && row.agentId == r.agentId
                     && row.agentKind == r.agentKind && row.derivation == r.derivation)
            && (o.result != Ok(Applied) ==> o.state == db)
            && (o.result == Ok(Applied) ==>
                  && r.observationId in o.state.notes.observations
                  && var row := o.state.notes.observations[r.observationId];
                     && row.sessionId == r.sessionId && row.content == r.content && row.relevance == r.relevance
                     && row.sourceEventIds == r.sourceEventIds && row.agentId == r.agentId
                     && row.agentKind == r.agentKind && row.derivation == r.derivation
                     && row.ts == r.ts && row.scope == r.scope
                     && o.state == db.(notes := db.notes.(observations := rows[r.observationId := row])))
  {
    WordsAreRead(r.agentKind);
  }

  lemma MarkerLineEffect(db: Database, r: LogRecord)
    requires r.PruneObservations?
    ensures var o, rows := ApplyRecord(db, r), db.notes.markers;
            && (o.result == Ok(Applied) <==> r.markerId !in rows && Each(r.prunedIds) && r.ts > 0)
            && (o.result == Ok(Duplicate) <==>
                  && r.markerId in rows && rows[r.markerId].sessionId == r.sessionId
                  && rows[r.markerId].prunedIds == r.prunedIds && rows[r.markerId].ts == r.ts)
            && (o.result != Ok(Applied) ==> o.state == db)
            && (o.result == Ok(Applied) ==>
                  && r.markerId in o.state.notes.markers
                  && var row := o.state.notes.markers[r.markerId];
                     && row.sessionId == r.sessionId && row.prunedIds == r.prunedIds && row.ts == r.ts
                     && o.state == db.(notes := db.notes.(markers := rows[r.markerId := row])))
  {
  }
}
