/** The log's record kinds (crates/aver-core/src/log.rs) and the enumerations
    they spell out as text (crates/aver-core/src/types.rs). */
module Records {
  import opened Prelude

  datatype Provenance = UserAsserted | Extracted | Inferred | Ambiguous {
    function Name(): string {
      match this
      case UserAsserted => "USER_ASSERTED"
      case Extracted => "EXTRACTED"
      case Inferred => "INFERRED"
      case Ambiguous => "AMBIGUOUS"
    }
  }

  function ParseProvenance(text: string): (p: Option<Provenance>)
    ensures p.Some? ==> p.value.Name() == text
    ensures forall q: Provenance :: q.Name() == text ==> p == Some(q)
  {
    if text == "USER_ASSERTED" then Some(UserAsserted)
    else if text == "EXTRACTED" then Some(Extracted)
    else if text == "INFERRED" then Some(Inferred)
    else if text == "AMBIGUOUS" then Some(Ambiguous)
    else None
  }

  datatype AgentKind = Human | Llm | DeterministicParser | ExternalTool {
    function Name(): string {
      match this
      case Human => "HUMAN"
      case Llm => "LLM"
      case DeterministicParser => "DETERMINISTIC_PARSER"
      case ExternalTool => "EXTERNAL_TOOL"
    }

    /** Provenance of a claim whose writer does not say otherwise. */
    function DefaultProvenance(): Provenance {
      match this
      case Human => UserAsserted
      case DeterministicParser => Extracted
      case ExternalTool => Extracted
      case Llm => Inferred
    }
  }

  function ParseAgentKind(text: string): (k: Option<AgentKind>)
    ensures k.Some? ==> k.value.Name() == text
    ensures forall q: AgentKind :: q.Name() == text ==> k == Some(q)
  {
    if text == "HUMAN" then Some(Human)
    else if text == "LLM" then Some(Llm)
    else if text == "DETERMINISTIC_PARSER" then Some(DeterministicParser)
    else if text == "EXTERNAL_TOOL" then Some(ExternalTool)
    else None
  }

  datatype ClaimStatus = Active | Superseded | Invalidated

  datatype Participant = Participant(role: string, entity: string)

  datatype ConfidenceChange = ConfidenceChange(claimId: int, confidence: real)

  datatype Decision = Decision(model: string, choice: string)

  datatype LogRecord =
    | AddClaim(ts: int, claimId: int, subject: string, predicate_: string, object_: string,
               source: string, agentId: string, agentKind: string, confidence: real,
               provenance: Option<string>, scope: string)
    | AddHyperedge(ts: int, hyperedgeId: int, predicate_: string, provenanceName: string,
                   confidence: real, sourceRefs: seq<string>, participants: seq<Participant>)
    | RecordEvent(ts: int, eventId: int, sessionId: string, eventKind: string, payload: string,
                  source: string, agentId: string, agentKind: string, scope: string)
    | RecordObservation(ts: int, observationId: string, sessionId: string, content: string,
                        relevance: string, sourceEventIds: seq<int>, agentId: string,
                        agentKind: string, derivation: string, scope: string)
    | PruneObservations(ts: int, markerId: string, sessionId: string, prunedIds: seq<string>)
    | RetireClaim(ts: int, claimId: int, reason: string)
    | AddContradiction(ts: int, contradictionId: int, claimId: int, reason: string,
                       newClaimId: Option<int>)
    | ProposeCandidate(ts: int, candidateId: int, eventId: int, subject: string,
                       predicate_: string, object_: string, scope: string)
    | PromoteCandidate(ts: int, candidateId: int, claimId: int, decision: Option<Decision>)
    | RejectCandidate(ts: int, candidateId: int, reason: string, decision: Option<Decision>)
    | SupersedeClaims(ts: int, claimIds: seq<int>)
    | DecayConfidence(ts: int, changes: seq<ConfidenceChange>)
    | MergeSourceRefs(ts: int, claimId: int, sourceRefs: seq<string>, promote: bool)
    | AddVectorChunk(ts: int, chunkId: int, claimId: int, text: string, embeddingModel: string,
                     embedding: Option<seq<real>>)
    | EmbedVectorChunk(ts: int, chunkId: int, newEmbedding: seq<real>)

  /** The three append-only files, in the order replay reads them. */
  datatype Series = ClaimLog | EventLog | ObservationLog

  /** The file each writer appends a record to: candidate records join the events they
      cite, prune markers join the observations they hide. */
  function SeriesOf(r: LogRecord): Series {
    match r
    case RecordEvent(_, _, _, _, _, _, _, _, _) => EventLog
    case ProposeCandidate(_, _, _, _, _, _, _) => EventLog
    case PromoteCandidate(_, _, _, _) => EventLog
    case RejectCandidate(_, _, _, _) => EventLog
    case RecordObservation(_, _, _, _, _, _, _, _, _, _) => ObservationLog
    case PruneObservations(_, _, _, _) => ObservationLog
    case _ => ClaimLog
  }
}
