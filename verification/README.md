# Aver: a model of its claim store and what it keeps

Aver is an event-sourced claim store. An append-only JSONL log is the truth; SQLite tables are a
projection of it that one function, `apply`, writes, live and on replay. This project models that
store and the pieces around it in Dafny and proves what they promise. `dafny verify dfyconfig.toml`
checks everything.

## How it is laid out

| part | modules | what is modelled |
|---|---|---|
| Records and tables | `Records`, `Projection`, `Effects`, `Connection` | the fifteen record kinds, the tables, what one record does to them (as a function, and column by column), and `apply` as methods on a class of mutable tables |
| Ontology | `Ontology`, `PredicateFilter` | seeding, closure table, implication, filters |
| Live writes | `Writers`, `Calls`, `Store`, `IdGen`, `LiveRuns`, `LogAhead` | id minting, and every writer: validate, mint, append, apply, commit; what each refuses and writes; runs of calls |
| Replay | `Runs`, `ReplayTheorem`, `Replay`, `Census`, `Recovery`, `Lifecycle` | that replay rebuilds a live run, what it makes of a run with failed calls, duplicates, forward-only rows, strict and lenient modes |
| Consolidation and compaction | `Consolidation`, `Report`, `Compaction` | the passes of consolidation, coverage, ranges and pruning |
| Log files | `SeriesFiles`, `Rotation`, `DiskReplay` | rotation and recovery step by step, appenders racing rotators over inodes, and what replay reads back |
| Graph | `Trails`, `GraphPath`, `PathQuery`, `Expand`, `Communities`, `CommunityPairs`, `ScopeWalk` | path search, neighbourhoods, communities, scope walks |
| OAuth | `Tokens`, `AuthDb`, `ScopeLists` | codes, token families, consents |
| Suggestions | `EditDistance`, `Suggestions` | edit distance and the suggested predicate |

A specification function gives the meaning of each operation on values (`Projection.ApplyRecord`,
`Writers.Step`, `Replay.AfterFiles`, `Tokens.Step`); the classes change fields in place and every
method is proved equal to its function; lemmas then speak about all runs. What those functions
mean on the rows themselves, column by column and in numbers, is stated apart from them in `Effects` (records),
`Calls` (writers), `Report` (consolidation), `Tokens.Says` (tokens), `CommunityPairs` (weights), `Census` (replay's
counters) and `PathQuery.Told` (paths).

A record that fails is modelled with the rows it had already written (`Projection.Outcome`), because
the savepoint around each line matters. A live call whose lines cannot be applied rolls the database
back but leaves the lines in the log (`LogAhead`), as the code does; `LogAhead.LogAheadExactly` says
for which calls that happens, and `Recovery.FilesReplayExactly` what replay makes of it. Foreign keys,
unique indexes, range checks, and the uniqueness, timestamp and empty-embedding triggers of
`migrations/0009_baseline.sql` are part of the tables.

Confidences are reals. Strings compare by code point, which is how Rust compares UTF-8. Clocks,
random ids, tokens and hashes are arguments of the calls; where the code relies on a draw being new,
the theorem says so.

## Where code and documentation differ

- `graph_path` is documented (graph.rs lines 118-119) as maximising the minimum edge confidence. The
  code, and `crates/aver-server/src/tools.rs` lines 1152-1154, use the product; the model follows the code, and
  `GraphPath.MinimumOnlyForOneHop` says when the two agree.
- Scope walks are documented as path prefixes. SQLite's LIKE ignores ASCII case, so "Proj" also walks
  down into "proj/a" and "Proj/a" up to "proj"; `ScopeWalk.CaseMattersExactly` and
  `ScopeWalk.AncestorCaseMattersExactly` give the exact conditions.
- Replay does not run recovery itself. `SeriesFiles.ReplayReadsAll` gives the exact condition under
  which it reads the whole series.
- Lenient replay is meant to carry on past bad lines. A line that is not UTF-8 ends it all the same;
  `Replay.LenientEndsIffReadable` gives the exact condition.
- Lenient replay is meant to rebuild everything but the bad line. A promotion whose decision does not fit (a
  client that names no model, say) appends its claim line before it is refused, and replay then creates a claim
  the live store does not have (`Recovery.UnnamedModelResurrects`). The client built from the environment refuses
  a blank model (`decision.rs` lines 510-520), so only a library caller that passes a `DecisionClient` of its own,
  or an `OllamaDecisionClient` with an empty model, gets there. Every other failed call is rebuilt as if it
  had not been made; `Recovery.FilesReplayExactly` is the exact statement.
- Consolidation lets the newer value of a single-valued predicate win, but a value that returns is a
  duplicate of its first claim, and then none is left; `Consolidation.SlotKeepsItsNewestValue` gives the
  exact condition.

## Model

| member | source | states |
|---|---|---|
| Ontology.TypeTable.SeedTypeTable | crates/aver-core/src/seed.rs:107-135 | Any list, on a table that may already hold rows: the missing names are inserted, every listed name gets the parent its last entry gives it, and nothing else changes; only an entry that names itself as parent stops it. A list with parents before children leaves the links acyclic |
| Ontology.TypeTable.InsertNames | crates/aver-core/src/seed.rs:112-117 | The first pass appends exactly the missing names, in the order they are first listed, without parents and with default columns, and keeps every other row and id |
| Ontology.TypeTable.SetParents | crates/aver-core/src/seed.rs:118-133 | The second pass sets for every listed name the parent of its last entry (none if that name is not there) and no other column or row; an entry that names itself stops it |
| Ontology.SeedingIsAcyclic | crates/aver-core/src/seed.rs:107-135 | A list with parents before children makes the parent links acyclic, also on a table that live extensions have grown |
| Ontology.TypeTable.RebuildClosure | crates/aver-core/src/seed.rs:137-165 | The walk up the parents terminates and the closure table holds (child, ancestor) exactly when the ancestor is zero or more parent links away |
| Ontology.LeafKeepsAcyclic | crates/aver-core/src/apply.rs:273-322 | An ontology extension, a new leaf, keeps the links acyclic |
| Ontology.AncestryIsPartialOrder | crates/aver-core/src/seed.rs:137-165 | Zero-or-more-parents is reflexive, transitive and antisymmetric |
| PredicateFilter.ImpliesIsAncestry | crates/aver-core/src/ontology.rs:193-219 | predicate_implies on known names is ancestry of the types they resolve to; unknown names imply nothing and blank ones are errors |
| PredicateFilter.ImplicationIsPartialOrder | crates/aver-core/src/ontology.rs:193-219 | Implication is a partial order on canonical names |
| PredicateFilter.DescendantNames | crates/aver-core/src/ontology.rs:267-308 | The names of all descendants and of the aliases that stand for one, and no others |
| PredicateFilter.ExpandPredicateFilter | crates/aver-core/src/ontology.rs:267-308 | A name is in the filter exactly when some entry lets it through |
| PredicateFilter.FilterIsImplication | crates/aver-core/src/ontology.rs:267-308 | For all known p and q, p is in the filter of q iff p implies q: this holds if and only if every alias that is also a type name stands for a type that name implies (so disjoint names suffice, and the shipped self-alias `uses` does no harm) |
| PredicateFilter.FilterMeansImplication | crates/aver-core/src/ontology.rs:267-308 | The same equivalence for a single p and q, asking the condition of p alone |
| Connection.Connection.Apply | crates/aver-core/src/apply.rs:60-264 | apply on the mutable tables: result and every table are those of the record transformer, also when the record fails half way; what that transformer does, column by column, is said by the lemmas of `Effects`, one for each kind |
| Connection.Connection.EnsurePredicate | crates/aver-core/src/apply.rs:273-322 | An unknown predicate becomes a child of relates_to, the closure is rebuilt and the table stays valid |
| Connection.Connection.AddClaimRow | crates/aver-core/src/apply.rs:325-398 | The claim, the predicate and both entities as the record transformer leaves them, also half way; Effects.ClaimLineEffect says which columns that gives the row |
| Connection.Connection.AddHyperedgeRows | crates/aver-core/src/apply.rs:401-458 | Edge, participants and entities, or the error and the rows written before it |
| Connection.Connection.SupersedeRows | crates/aver-core/src/apply.rs:875-903 | Supersedes in order and stops at the first missing claim, leaving the earlier ones changed |
| Connection.Connection.DecayRows | crates/aver-core/src/apply.rs:220-235 | Sets confidences in order and stops at the first missing claim |
| Connection.Connection.ApplyEventLogRecord | crates/aver-core/src/apply.rs:481-873 | Events, proposals, promotions and rejections: state and result are those of the record transformer |
| Connection.Connection.ApplyObservationLogRecord | crates/aver-core/src/apply.rs:533-633 | Observations and prune markers: state and result are those of the record transformer |
| Effects.ClaimLineEffect | crates/aver-core/src/apply.rs:325-398 | A claim line is applied exactly when its id is new, its words are known, its confidence lies in [0,1] and the clock fits; the row then has the line's subject, predicate, object, agent, scope and confidence, its source as the only reference, status ACTIVE, both times the line's, and the stated provenance or the one of its agent kind |
| Effects.KnownClaimLine | crates/aver-core/src/apply.rs:339-370 | A claim line with a known id is a duplicate exactly when subject, predicate, object, agent, kind and scope agree, whatever else it says, and changes nothing |
| Effects.PredicateIsKnown | crates/aver-core/src/apply.rs:273-322 | A predicate not known becomes a type under relates_to with its source and time, and one row of the extension log |
| Effects.EntityIsTouched | crates/aver-core/src/ontology.rs:462-506 | An entity row: inserted with its type, promoted from Thing once, or seen again; refused exactly by the clock or a missing Thing |
| Effects.HyperedgeLineEffect | crates/aver-core/src/apply.rs:401-458 | A hyperedge line is applied exactly when id, words, confidence, references, participants and clock allow; its row and every participant's entity, column by column |
| Effects.KnownHyperedgeLine | crates/aver-core/src/apply.rs:401-458 | A known hyperedge id is a duplicate within 1e-9 of the confidence and with equal columns |
| Effects.RetireLineEffect | crates/aver-core/src/apply.rs:635-668 | Retirement: status INVALIDATED, the marker appended, seen now; what refuses it and what repeats it |
| Effects.ContradictionLineEffect | crates/aver-core/src/apply.rs:670-701 | A contradiction row as the line says; both claims must be there and differ |
| Effects.SupersedeLineEffect | crates/aver-core/src/apply.rs:875-903 | Exactly the listed claims become SUPERSEDED, when all are there |
| Effects.DecayLineEffect | crates/aver-core/src/apply.rs:220-235 | Each listed claim ends at the last confidence listed for it, when all are there and in range |
| Effects.MergeLineEffect | crates/aver-core/src/apply.rs:905-931 | References replaced; a promoting line makes the claim EXTRACTED at 0.75 at least |
| Effects.ChunkLineEffect | crates/aver-core/src/apply.rs:951-988 | A chunk row as the line says, indexed exactly when its embedding has 768 numbers |
| Effects.EmbeddingLineEffect | crates/aver-core/src/apply.rs:990-1020 | An embedding fills an empty chunk once; the same again is a duplicate, another an error |
| Effects.EventLineEffect | crates/aver-core/src/apply.rs:481-531 | An event row as the line says, and when it is a duplicate |
| Effects.ProposalLineEffect | crates/aver-core/src/apply.rs:703-760 | A PENDING candidate as the line says, and when it is a duplicate |
| Effects.PromotionLineEffect | crates/aver-core/src/apply.rs:777-828 | PENDING becomes PROMOTED with the claim, when the decision fits and the claim is there |
| Effects.RejectionLineEffect | crates/aver-core/src/apply.rs:830-873 | PENDING becomes REJECTED with the reason, when the decision fits |
| Effects.ObservationLineEffect | crates/aver-core/src/apply.rs:533-596 | An observation row as the line says, and when it is a duplicate |
| Effects.MarkerLineEffect | crates/aver-core/src/apply.rs:598-633 | A prune marker as the line says, and when it is a duplicate |
| Runs.ClaimsStay | crates/aver-core/src/apply.rs:60-264 | No record ever removes a claim |
| Runs.MoreClaimsChangeNothing | crates/aver-core/src/candidates.rs:164-197 | Replaying the event log against more claims than it was written against gives the same tables |
| Runs.CommitRebuilds | crates/aver-core/src/claims.rs:124-161 | One committed batch of lines, appended to whichever logs, keeps every log rebuilding its tables |
| Runs.SeriesBySeries | crates/aver-core/src/replay.rs:109-157 | Replaying log, then events, then observations equals rebuilding the three parts separately |
| ReplayTheorem.ReplayRebuildsLiveRun | crates/aver-core/src/replay.rs:109-157 | Over every run of live calls whose lines all applied, strict replay of log, then events, then observations from the seeded database meets no error and no duplicate and rebuilds the live database, although the run interleaved the series |
| Replay.FilesRebuildLiveRun | crates/aver-core/src/replay.rs:109-157 | The same for files: however a live run's logs were cut into archives, strict and lenient replay rebuild its database with an empty quarantine |
| DiskReplay.SeriesRead | crates/aver-core/src/replay.rs:177-214 | The files collected for a series hold its replay input, line by line |
| DiskReplay.DiskRebuildsLiveRun | crates/aver-core/src/replay.rs:177-214 | From disk to database: once recovery has run, replay of what the three series' files hold rebuilds the database of any run whose lines all applied, in both modes, wherever rotation cut the logs |
| DiskReplay.DiskReplaysExactly | crates/aver-core/src/replay.rs:177-214 | From disk to database after any run, failed calls included: when strict replay gets to the end, and when lenient replay rebuilds the live database |
| DiskReplay.CrashedDiskReplaysExactly | crates/aver-core/src/log.rs:481-640 | The same over every interleaving of appenders, rotators and recoveries with crashes anywhere: if the processes wrote the lines a run logged, then from the sweep of a recovery on, until a holder of the lock crashes again, replay is exact in both modes |
| Recovery.FilesReplayExactly | crates/aver-core/src/replay.rs:39-157 | Replay of the files any live run left, failed calls included. Strict replay gets to the end exactly when no call left its log ahead, and then rebuilds the live database; lenient replay always gets to the end, quarantines nothing exactly then, and rebuilds the live database exactly when no promotion was refused for its decision alone |
| Recovery.SkippingRebuildsExactly | crates/aver-core/src/replay.rs:122-157 | Over every run, leaving out the lines that do not apply rebuilds the live database exactly when no promotion was refused for its decision alone |
| Recovery.ReplayFailsExactly | crates/aver-core/src/replay.rs:122-157 | Replay meets a line that does not apply exactly when some call of the run left its log ahead |
| Recovery.StepRecovers | crates/aver-core/src/claims.rs:147-160 | What every other call keeps, whether its lines apply or fail: replay that leaves out failing lines gives the live tables, series by series |
| Recovery.LineRecovers | crates/aver-core/src/replay.rs:122-157 | One line more, applied or failed, of any series |
| Recovery.UnnamedModelResurrects | crates/aver-core/src/candidates.rs:164-208 | Triage with a decision client that names no model: the promotion is rolled back and its claim refused, yet lenient replay of the files creates that claim |
| Recovery.UnnamedModelIsReachable | crates/aver-core/src/candidate_decision.rs:87-155 | Such a promotion is two calls, an event and a proposal, away from every fresh store that holds no entities |
| ReplayTheorem.RunKeepsInvariant | crates/aver-core/src/claims.rs:124-161 | Every run keeps: the logs rebuild the tables, ids are at most the generator's last, candidates and confidences are sound, and every claim-log line was careful where it applied (only ACTIVE claims superseded, references kept, no confidence raised by a decay) |
| LiveRuns.PlanIsSound | crates/aver-core/src/claims.rs:90-161 | Every line a live call plans carries a new id or changes existing rows within bounds, and never meets an existing row as a duplicate |
| LiveRuns.SoundLinesKeepHealth | crates/aver-core/src/apply.rs:60-264 | Applying sound lines keeps ids bounded, candidates sound and confidences in range |
| LiveRuns.ConfidenceStaysWithin | crates/aver-core/src/apply.rs:905-931 | Confidences stay in [0,1] through add, merge and decay |
| LiveRuns.MergePlanIsSound | crates/aver-core/src/claims.rs:614-684 | All lines of a merge pass, applied one after another, are sound where each applies |
| LiveRuns.SupersedePlanIsSound | crates/aver-core/src/claims.rs:526-590 | Both supersede lines of a pass are sound where they apply |
| Lifecycle.RecordMovesForward | crates/aver-core/src/apply.rs:60-264 | Every careful record moves every row forward only: status never returns to ACTIVE nor leaves INVALIDATED, a decided candidate never changes, no row disappears; live calls plan careful records only |
| Lifecycle.DecayOnlyLowers | crates/aver-core/src/claims.rs:401-455 | A careful decay line leaves every confidence at most where it was |
| ReplayTheorem.RunMovesForward | crates/aver-core/src/candidates.rs:134-284 | Over every live run rows only move forward, every PROMOTED candidate names an existing claim with its subject, predicate, object and scope, and confidences stay in range |
| Lifecycle.AppliedIsAbsorbed | crates/aver-core/src/apply.rs:13-16 | Just after a line of a recognised kind has applied, the same line is a duplicate that changes nothing |
| Lifecycle.AbsorptionLasts | crates/aver-core/src/apply.rs:339-370 | A line that is a duplicate stays one while rows move forward |
| ReplayTheorem.RepeatedLineIsDuplicate | crates/aver-core/src/apply.rs:951-1020 | A line of a live run's logs repeated at any later position is a duplicate that changes nothing, whatever lies between (a chunk line only if its embedding was not backfilled in between) |
| ReplayTheorem.LiveRunRepeatsAreDuplicates | crates/aver-core/src/apply.rs:339-370 | The same, stated for every run from a fresh store |
| Lifecycle.TwiceIsOnce | crates/aver-core/src/apply.rs:13-16 | Every record kind applied twice in a row leaves the same state as once |
| LogAhead.LogAheadExactly | crates/aver-core/src/claims.rs:915-958 | A call leaves its log ahead of the database exactly when it appends and trips a constraint its writer does not check first: repeated references, participants or cited events, a retirement marker already merged in, a marker hash already there, a bad decision or attribution, an empty backfilled vector, or a clock before 1970 or before the creation of an entity or claim the line touches |
| LogAhead.RunSucceedsExactly | crates/aver-core/src/claims.rs:124-161 | A run from a fresh store leaves no log ahead exactly when none of its calls trips such a constraint |
| LogAhead.EmptyBackfillLeavesLogAhead | crates/aver-core/src/vectors.rs:197-233 | An embedding client that answers with an empty vector leaves the log ahead |
| LogAhead.ClockStepBackLeavesLogAhead | crates/aver-core/src/ontology.rs:462-506 | So does a claim written with a clock behind the creation of its subject |
| LogAhead.EarlyRetirementLeavesLogAhead | crates/aver-core/src/claims.rs:915-958 | So does a retirement dated before the claim was written |
| LogAhead.ContradictionLineApplies | crates/aver-core/src/claims.rs:317-358 | Once contradict has committed its replacement claim its own line always applies, short of a clock before 1970 |
| LogAhead.RunStaysGrounded | crates/aver-core/src/claims.rs:124-161 | The facts that exactness needs hold along every run |
| Replay.ReplayLine | crates/aver-core/src/replay.rs:258-300 | One line under a savepoint: counted, uncounted, duplicate or fault, and on a fault the tables are as before |
| Replay.ReplayFile | crates/aver-core/src/replay.rs:109-157 | The loop over a file's lines is the line-by-line specification, with path and line numbers; an unreadable line ends it in both modes |
| Replay.ReplayWithMode | crates/aver-core/src/replay.rs:72-165 | The loop over the files is the specification, in both modes |
| Replay.LenientIsStrictOnKeptLines | crates/aver-core/src/replay.rs:122-157 | Lenient replay equals strict replay of the same files without the quarantined lines, those that had already written rows included; where an unreadable line ends the one it ends the other |
| Replay.LenientEndsIffReadable | crates/aver-core/src/replay.rs:124-131 | A lenient run reaches the end exactly when every line can be read: one line that is not UTF-8, or an archive that breaks off, ends both modes |
| Replay.StrictSuccessIsLenient | crates/aver-core/src/replay.rs:122-157 | When strict succeeds, lenient gives the same database, the same report and an empty quarantine |
| Replay.EveryLineAccountedFor | crates/aver-core/src/replay.rs:258-300 | In a file whose lines can all be read, every nonblank line is exactly one of counted, prune marker, duplicate or quarantined |
| Replay.FailuresCanWriteFirst | crates/aver-core/src/apply.rs:875-903 | A failing record can have changed rows before it failed |
| Census.ReportIsCensus | crates/aver-core/src/replay.rs:278-299 | A replay into tables without rows reports, in either mode, exactly the claims, hyperedges, events and observations the database then holds |
| Census.CountSays | crates/aver-core/src/replay.rs:281-299 | Which counter each kind of line raises, and that a prune marker raises none |
| Store.Store.MintId | crates/aver-core/src/ids.rs:47-68 | The minted id exceeds every earlier one and the state moves to it |
| Store.Store.LogAndCommit | crates/aver-core/src/claims.rs:147-160 | Append, apply in a transaction, commit or roll back: the line stays in the log either way |
| Store.Store.InsertClaim | crates/aver-core/src/claims.rs:124-161 | The operation on logs, tables and generator, with the minted id returned exactly on commit; refused exactly for a blank text, a confidence out of range or a new predicate that is not a user's; committed, the row has the subject, predicate, object, confidence, source, agent, kind, provenance and scope of the write |
| Store.Store.InsertHyperedge | crates/aver-core/src/hyperedges.rs:11-93 | As above, for hyperedges |
| Store.Store.RecordEvent | crates/aver-core/src/episodic.rs:43-90 | As above, for events |
| Store.Store.RecordObservation | crates/aver-core/src/episodic.rs:170-242 | As above; a known observation is answered with its id and no line, one that only shares the hash is refused |
| Store.Store.PruneObservations | crates/aver-core/src/episodic.rs:482-519 | The operation, and the number of observations dropped |
| Store.Store.RetireClaim | crates/aver-core/src/claims.rs:915-958 | The operation, for retirement |
| Store.Store.RecordContradiction | crates/aver-core/src/claims.rs:204-235 | As InsertClaim, for one contradiction |
| Store.Store.Contradict | crates/aver-core/src/claims.rs:317-358 | Checks first, then the replacement claim, then the contradiction that names it; a replacement that does not commit ends the call |
| Store.Store.ProposeCandidate | crates/aver-core/src/candidates.rs:63-114 | As InsertClaim, for proposals |
| Store.Store.PromoteCandidate | crates/aver-core/src/candidates.rs:134-208 | Claim line to the claim log, promotion line to the event log, both applied in one transaction; a candidate promoted before is answered with its claim |
| Store.Store.RejectCandidate | crates/aver-core/src/candidates.rs:215-284 | The operation, for rejections, and whether it was refused: a rejection repeated with its reason is not |
| Store.Store.InsertVectorChunk | crates/aver-core/src/vectors.rs:64-97 | As InsertClaim, for chunks |
| Store.Store.BackfillEmbedding | crates/aver-core/src/vectors.rs:197-233 | The operation, for one backfilled embedding |
| Store.Store.CollectRefs | crates/aver-core/src/claims.rs:640-658 | The loop that grows source_refs in place yields the union of the group's references, each once, in order |
| Store.Store.MergeDuplicateSourceRefs | crates/aver-core/src/claims.rs:614-684 | The merge pass over all groups is the merge operation, and its count the number of groups |
| Store.Store.DecayContradictedConfidence | crates/aver-core/src/claims.rs:401-455 | Exactly the ACTIVE claims that a contradiction row has as its claim end one decay step lower, no other row changes, and the count is that of those lowered |
| Store.Store.SupersedeStaleClaims | crates/aver-core/src/claims.rs:526-590 | Duplicate and conflict passes are the supersede operation, and the count is theirs |
| Store.ConsolidateReport | crates/aver-core/src/claims.rs:526-590 | Every claim ends as its rows before the call say (merged, one decay step lower iff ACTIVE and contradicted, superseded), and the counts of merged groups, decayed and superseded claims are over the same conditions |
| Calls.WriteClaimCall | crates/aver-core/src/claims.rs:90-161 | An insert is refused exactly when a text is blank, the confidence out of range, or a predicate is unknown and not a user's; a committed one leaves a row that has every column of the write |
| Calls.WriteHyperedgeCall | crates/aver-core/src/hyperedges.rs:11-93 | The same for a hyperedge: what is refused, and the row in terms of the input |
| Calls.WriteEventCall | crates/aver-core/src/episodic.rs:43-90 | The same for an event |
| Calls.WriteObservationCall | crates/aver-core/src/episodic.rs:170-242 | The same for an observation: cited events exist and are of its session, the agent is that of the first |
| Calls.PruneCall | crates/aver-core/src/episodic.rs:482-519 | A prune writes a marker exactly when more than `keep` observations are in view and every event is covered; the marker lists each dropped one once, and none that stays goes before one dropped, by relevance (low first), then age, then id |
| Calls.PruneOrderSays | crates/aver-core/src/episodic.rs:482-519 | That order in terms of the rows |
| Calls.RetireCall | crates/aver-core/src/claims.rs:915-958 | What a retirement refuses, and the row it leaves |
| Calls.ContradictCall | crates/aver-core/src/claims.rs:317-358 | What a contradiction refuses, and the row it leaves |
| Calls.ProposeCall | crates/aver-core/src/candidates.rs:63-114 | What a proposal refuses, and the candidate it leaves |
| Calls.PromoteCall | crates/aver-core/src/candidates.rs:134-208 | The claim a promotion writes says what the candidate proposed, in its event's agent's name and scope, with the event as source, at the decision's attribution or else INFERRED 0.45 |
| Calls.RejectCall | crates/aver-core/src/candidates.rs:215-284 | What a rejection refuses, and the candidate it leaves |
| Calls.WriteChunkCall | crates/aver-core/src/vectors.rs:64-97 | What a chunk insert refuses, and the row it leaves |
| Calls.BackfillCall | crates/aver-core/src/vectors.rs:197-233 | What a backfill leaves in the chunk |
| Calls.InferredDecayCall | crates/aver-core/src/claims.rs:460-520 | The decay of INFERRED claims multiplies exactly the confidences of the ACTIVE INFERRED ones by their factors, and logs nothing when there are none |
| Calls.RefusedExactly | crates/aver-core/src/claims.rs:90-161 | Which calls are refused before a line is written, for every writer, over the arguments and the rows; those that find their work done already are not |
| Calls.DigitsSpell | crates/aver-core/src/candidates.rs:134-208 | The event id in the source text is spelled in decimal |
| IdGen.MintedIdsIncrease | crates/aver-core/src/ids.rs:38-68 | However threads interleave on the atomic cell, spurious failures included, minted ids are strictly increasing and above the seed, so none comes twice |
| IdGen.FailureMeansProgress | crates/aver-core/src/ids.rs:54-66 | An exchange that fails for a reason means another id was handed out since the read |
| Consolidation.ConsolidationNormalForm | crates/aver-core/src/claims.rs:526-590 | Afterwards every ACTIVE claim has the lowest id of all claims with its triple, and no two ACTIVE claims share a subject and a single-valued predicate |
| Consolidation.SlotKeepsItsNewestValue | crates/aver-core/src/claims.rs:551-573 | A subject and single-valued predicate keep an ACTIVE claim exactly when the first claim of the newest value is ACTIVE and newer than every claim of another value |
| Consolidation.ReturningValueEmptiesSlot | crates/aver-core/src/claims.rs:534-573 | Values A, B, A of a single-valued predicate leave no ACTIVE claim |
| Consolidation.StatusAfter | crates/aver-core/src/claims.rs:534-575 | Exactly which ACTIVE claims are superseded; no other status changes |
| Consolidation.SurvivorHoldsAllRefs | crates/aver-core/src/claims.rs:614-684 | Every reference of a duplicate group is in the survivor's duplicate-free list |
| Consolidation.SupersededCountIsExact | crates/aver-core/src/claims.rs:534-590 | The superseded count equals the drop in ACTIVE claims |
| Consolidation.SecondRunIsIdle | crates/aver-core/src/claims.rs:526-590 | A second run changes no status, references or provenance and supersedes nothing |
| Consolidation.MergeStep | crates/aver-core/src/claims.rs:614-684 | Merging one more group, one line at a time, is the closed form of the groups merged so far |
| Consolidation.DecayRecordDecays | crates/aver-core/src/claims.rs:401-455 | The decay line, applied change by change, lowers exactly the targeted claims |
| Consolidation.DecayFalls | crates/aver-core/src/claims.rs:401-455 | Each pass keeps a confidence in [0,1] and takes at least 0.095 or reaches 0 |
| Consolidation.WholeHundredths | crates/aver-core/src/claims.rs:401-455 | After the first pass a confidence is a whole number of hundredths |
| Consolidation.TenPassesReachZero | crates/aver-core/src/claims.rs:401-455 | Ten passes reach 0 from any start, and it stays there |
| Report.ConsolidatedIsReported | crates/aver-core/src/claims.rs:526-590 | One claim after the whole call, over the rows before it: merged confidence, provenance and references; one decay step lower exactly when ACTIVE with a contradiction row naming it as the contradicted claim; ACTIVE exactly when nothing says the same before it or says otherwise after it of a single-valued slot |
| Report.MergePassSays | crates/aver-core/src/claims.rs:614-684 | The merge pass: the first of two or more ACTIVE claims of one triple takes all references, and EXTRACTED at 0.75 at least where a human and an LLM both asserted it |
| Report.DecayedIsOneStep | crates/aver-core/src/claims.rs:401-455 | A decay step in numbers: a tenth less, to the nearest hundredth, never under zero |
| Report.DecayTargetsSay | crates/aver-core/src/claims.rs:411-420 | The decay pass lowers exactly the ACTIVE claims that some contradiction row has as its claim |
| Report.ReplacementIsSpared | crates/aver-core/src/claims.rs:411-420 | A claim only named as a replacement keeps its confidence |
| Report.SurvivesSays | crates/aver-core/src/claims.rs:534-575 | Which claims the supersede passes leave ACTIVE, over the rows |
| Compaction.ObservationCoverage | crates/aver-core/src/episodic.rs:343-365 | Covered and uncovered partition the session's events, in session order |
| Compaction.UncoveredRanges | crates/aver-core/src/episodic.rs:447-477 | The ranges are the maximal runs of uncovered events: disjoint, separated by a covered event, together exactly the uncovered ids |
| Compaction.PruneDropsTheFront | crates/aver-core/src/episodic.rs:482-519 | A prune that drops anything starts with no uncovered event and leaves exactly `keep` observations, none ranked below a dropped one |
| Compaction.MarkerHidesItsIds | crates/aver-core/src/episodic.rs:482-519 | Once its marker is written, exactly the dropped observations leave view |
| Compaction.PruneKeepsTheBest | crates/aver-core/src/episodic.rs:482-519 | After the marker, the visible observations are the `keep` best |
| GraphPath.Search | crates/aver-core/src/graph.rs:169-222 | The queue loop terminates without a global visited set and settles the first level that reaches the target, with the best of its hits |
| GraphPath.Visiting | crates/aver-core/src/graph.rs:186-221 | One queue entry: edges in sorted order, hits compared with the best so far, the others queued |
| GraphPath.SettledIsOptimal | crates/aver-core/src/graph.rs:160-233 | None exactly when no chain of at most max_hops edges joins the ends; otherwise a chain within the limit that no joining chain, repeated entities included, beats by hops, product, entity path, edge order |
| GraphPath.MinimumOnlyForOneHop | crates/aver-core/src/graph.rs:116-119 | The optimum by product is always one by minimum confidence, as documented, exactly when at most one hop is allowed |
| Trails.LevelSound | crates/aver-core/src/graph.rs:178-222 | A level of the queue holds only simple chains of its length that have not met the target |
| Trails.LevelComplete | crates/aver-core/src/graph.rs:178-222 | and all of them |
| Trails.LevelInOrder | crates/aver-core/src/graph.rs:178-222 | in the order of the edges taken |
| Trails.BestIsNotBeaten | crates/aver-core/src/graph.rs:199-212 | The running replacement rule keeps the optimum, and the earliest of equals |
| Trails.SimpleChain | crates/aver-core/src/graph.rs:190-192 | Whatever a chain joins, a chain without repeated entities joins in no more hops, so skipping visited entities loses nothing |
| PathQuery.FindPath | crates/aver-core/src/graph.rs:127-233 | graph_path on the tables: the refusals in order, the empty path for equal ends, and otherwise the optimum. Every step is told column by column from an ACTIVE claim in scope or from a hyperedge between two of its participants, with a confidence of min_confidence at least, an allowed provenance and a predicate the filter lets through, and the steps lead from the source to the target; a claim or hyperedge that meets these conditions and leads there directly makes the answer one step, no less confident, and of the lowest id among equals |
| PathQuery.ReportSteps | crates/aver-core/src/graph.rs:275-335 | Each reported step is its record's own (direction, predicate, provenance, references), admitted by the query and with the edge's confidence |
| PathQuery.Candidates | crates/aver-core/src/graph.rs:235-341 | Exactly the admitted claim and hyperedge edges (direction, scope, confidence, provenance, predicate), sorted by record, kind, from, to |
| PathQuery.PairCandidates | crates/aver-core/src/graph.rs:315-337 | An edge for every ordered pair of places whose entities differ |
| PathQuery.OptimumIsUnique | crates/aver-core/src/graph.rs:161-167 | The order leaves no ties: two routes that are each preferred to the other are the same |
| PathQuery.AnswerIsBest | crates/aver-core/src/graph.rs:161-210 | No route has fewer steps than the answer; of its length none has a larger product, and of its product none a lesser list of entities |
| Expand.ExpandInner | crates/aver-core/src/graph.rs:368-421 | Exactly the entities within `hops` undirected steps over admitted claims, each once, and exactly the admitted claims with an end within hops-1 steps, each once |
| Expand.ExpandWithScope | crates/aver-core/src/graph.rs:356-366 | The same, after the scope check |
| Expand.Spread | crates/aver-core/src/graph.rs:391-420 | The queue loop reaches the ball of the asked radius |
| Expand.MeetEdges | crates/aver-core/src/graph.rs:402-416 | One entry: every admitted claim at it is met once, every new end queued once |
| Expand.BallIsDistance | crates/aver-core/src/graph.rs:391-420 | The radius is walking distance |
| Communities.DetectCommunities | crates/aver-core/src/graph.rs:461-639 | The communities partition the entities by strong chains, sorted by id, none empty, each with the mean weight of its internal edges as score and its bridge nodes; the lemmas of CommunityPairs say in numbers what a row weighs |
| Communities.DetectedIsUnique | crates/aver-core/src/graph.rs:461-639 | That description leaves no freedom: the weighted pairs once each in order, no empty and no repeated community, and so the same communities, scores and bridge nodes |
| Communities.SumWeights | crates/aver-core/src/graph.rs:485-500 | The weight map holds the summed contributions of every pair of distinct entities that has one |
| Communities.Component | crates/aver-core/src/graph.rs:592-601 | The inner queue loop returns exactly one component, each entity once |
| Communities.SameCommunityIffChain | crates/aver-core/src/graph.rs:587-638 | Two entities share a community exactly when a chain of edges with summed, clipped weight at least 0.5 joins them |
| Communities.LeavingEdgesAreWeak | crates/aver-core/src/graph.rs:554-601 | Every edge that leaves a community is below 0.5 |
| Communities.BridgesLeadOut | crates/aver-core/src/graph.rs:617-627 | Bridge nodes are exactly the members with an edge out |
| Communities.StoreScoresWithin | crates/aver-core/src/graph.rs:604-616 | Scores lie in [0,1] in every store whose confidences do |
| Communities.ConnectedIsEquivalence | crates/aver-core/src/graph.rs:587-638 | Chains of strong edges make an equivalence |
| CommunityPairs.OneClaimPair | crates/aver-core/src/graph.rs:476-530 | Where one admitted claim of confidence c joins two entities nothing else touches: they share a community exactly when c, 0.95c, 0.65c or 0.35c (user-asserted, extracted, inferred, ambiguous) is at least 0.5, so never for an ambiguous claim; the community is then those two, with that score (1 at most) and no bridge, and otherwise each is alone, scored 0, a bridge |
| CommunityPairs.OneHyperedgePair | crates/aver-core/src/graph.rs:476-530 | The same for a hyperedge with two participants |
| CommunityPairs.StrongClaimJoins | crates/aver-core/src/graph.rs:476-530 | Whatever else is in the store, an admitted claim that comes to 0.5 at its rate joins its ends |
| CommunityPairs.StrongHyperedgeJoins | crates/aver-core/src/graph.rs:476-530 | and a hyperedge that does joins any two of its participants |
| CommunityPairs.TotalAppend | crates/aver-core/src/graph.rs:485-500 | Contributions add up |
| ScopeWalk.WalksArePathPrefixes | crates/aver-core/src/store.rs:132-155 | Descendants admits a row iff it equals the scope or starts with scope plus "/", Ancestors iff it is "global", equals the scope or row plus "/" starts the scope; ASCII case aside, as LIKE ignores it |
| ScopeWalk.EscapeLikePattern | crates/aver-core/src/store.rs:159-168 | The loop escapes exactly the metacharacters |
| ScopeWalk.SqlEscapeIsEscape | crates/aver-core/src/store.rs:144-153 | The three nested replacements in SQL escape as the loop does |
| ScopeWalk.PatternIsPrefix | crates/aver-core/src/store.rs:136-144 | An escaped pattern matches literally |
| ScopeWalk.WalksAreConverse | crates/aver-core/src/store.rs:132-155 | The two walks are converse apart from "global" |
| ScopeWalk.DescentIsPartialOrder | crates/aver-core/src/store.rs:132-155 | Descent is a partial order on scopes |
| ScopeWalk.CaseMattersExactly | crates/aver-core/src/store.rs:136-143 | Descendants respects case on every row if and only if the scope has no ASCII letter |
| ScopeWalk.AncestorCaseMattersExactly | crates/aver-core/src/store.rs:144-153 | Ancestors respects case on every row if and only if no ASCII letter of the scope stands before a slash |
| ScopeWalk.CaseIsIgnored | crates/aver-core/src/store.rs:136-143 | A concrete pair: "Proj" walks down into "proj/a" |
| ScopeWalk.CaseIsIgnoredUpwards | crates/aver-core/src/store.rs:144-153 | A concrete pair: "Proj/a" walks up to "proj" |
| ScopeWalk.LowerCaseScopesAgree | crates/aver-core/src/store.rs:132-155 | Where all scopes are lower case both walks are exact path prefixes |
| ScopeWalk.HyperedgesAreGlobalRows | crates/aver-core/src/graph.rs:22-32 | Hyperedges are admitted exactly as a row scoped "global" would be |
| SeriesFiles.SafeMoveKeepsContents | crates/aver-core/src/log.rs:567-640 | Every single step of rotation and recovery keeps every line of the series, in order, each once |
| SeriesFiles.SeriesDirectory.GzipFile | crates/aver-core/src/log.rs:567-593 | The archive grows under a temporary name and replaces only when complete; every state on the way is crash-safe |
| SeriesFiles.SeriesDirectory.NextRotationIndex | crates/aver-core/src/log.rs:440-474 | The next index is one above every archive and every half-rotated file, 1 where there are none |
| SeriesFiles.SeriesDirectory.MaybeRotate | crates/aver-core/src/log.rs:596-640 | Rotates, to the next index, exactly when asked, the lock is free and the active file is there with 67108864 bytes or 500000 lines at least; every state on the way holds all lines |
| SeriesFiles.SeriesDirectory.FinishOne | crates/aver-core/src/log.rs:526-544 | One half-rotated file: keep a complete archive, rebuild a truncated one, or compress |
| SeriesFiles.SeriesDirectory.FinalizePending | crates/aver-core/src/log.rs:481-546 | After recovery no plain or temporary file is left and what replay reads holds every line in append order |
| SeriesFiles.ReplayReadsAll | crates/aver-core/src/replay.rs:177-214 | Replay reads the whole series if and only if every archive is complete and no plain numbered file still holds lines without one |
| Rotation.SeriesIsHistory | crates/aver-core/src/log.rs:281-323 | Under any interleaving of appenders, rotators and recoverers, each at its own point of its program, with crashes anywhere, the series is exactly the lines written, in the order of the writes, and a completed append is in it once |
| Rotation.HolderMovesSafely | crates/aver-core/src/log.rs:481-640 | Wherever the holder of the lock stands in rotation or recovery, its next file-system step is safe to be the last before a crash |
| Rotation.HolderStaysSound | crates/aver-core/src/log.rs:481-640 | and what it has established carries over to its next point |
| Rotation.RecoveryLeavesAllReadable | crates/aver-core/src/log.rs:481-546 | When a recovery has swept everything, whatever ran and crashed before, replay would read exactly the lines written |
| Rotation.ReadableFromRecoveryOn | crates/aver-core/src/log.rs:481-640 | From a finished sweep on, as long as no holder of the lock crashes: whenever nobody holds it exclusively, however many appends and rotations have run since, replay would read exactly the lines written |
| Rotation.StepStaysTidy | crates/aver-core/src/log.rs:610-640 | What that rests on: no plain numbered file while nobody holds the lock exclusively, and a rotation under way leaves only the one it is compressing |
| Rotation.WritesLandInActive | crates/aver-core/src/log.rs:281-295 | No write lands in a file already renamed away |
| Rotation.CompletedKeepOrder | crates/aver-core/src/log.rs:281-295 | An append that returned before another began stands before it, whatever follows |
| Rotation.SeriesOnlyGrows | crates/aver-core/src/log.rs:610-640 | From any point on the series only grows at its end |
| Rotation.StepKeepsInv | crates/aver-core/src/log.rs:391-417 | Every event of every process keeps the lock, handle, program and contents invariant |
| Rotation.NextIndexSays | crates/aver-core/src/log.rs:440-474 | The index of a rotation among racing processes is that of NextRotationIndex |
| Tokens.RunKeepsInv | crates/aver-server/src/auth.rs:482-675 | Over every run: at most one unrevoked refresh token a family, every token carries its founding user, client and scopes, each code founds at most one family |
| Tokens.ReuseKillsFamily | crates/aver-server/src/auth.rs:629-634 | Presenting a revoked refresh token is refused, revokes its whole family and touches no other |
| Tokens.DeadStaysDead | crates/aver-server/src/auth.rs:659-675 | A family without live tokens never holds one again |
| Tokens.RevocationKillsGrant | crates/aver-server/src/auth.rs:840-863 | revoke_consent kills exactly the existing families of that user and client |
| Tokens.TradedInTokenIsReuse | crates/aver-server/src/auth.rs:604-657 | A refresh token that was traded in is refused ever after, and presenting it kills its family for good |
| AuthDb.AuthDb.ExchangeAuthorizationCode | crates/aver-server/src/auth.rs:482-557 | Issued exactly when the code is stored and unused, client, challenge and redirect URI are equal and now is before its expiry; otherwise the first failing check in order, and nothing changes; issued, the code is marked used and one pair carries its user, client and scopes |
| AuthDb.AuthDb.RefreshAccessToken | crates/aver-server/src/auth.rs:604-657 | Issued exactly for a stored token neither revoked nor expired, which is then revoked; a revoked one has every unrevoked token of its family revoked; otherwise nothing changes |
| AuthDb.AuthDb.RevokeTokenFamily | crates/aver-server/src/auth.rs:659-675 | Row by row over both tables: unrevoked rows of the family are revoked now, earlier revocations keep their time, other rows are untouched; the family is dead afterwards |
| AuthDb.MarkRevoked | crates/aver-server/src/auth.rs:659-675 | The loop behind one UPDATE, in whatever order the rows are visited |
| AuthDb.AuthDb.RevokeConsentRow | crates/aver-server/src/auth.rs:840-863 | The same row by row for the tokens of one user and client, the consent marked revoked, codes and other consents untouched |
| AuthDb.AuthDb.AccessTokenGrant | crates/aver-server/src/auth.rs:691-710 | A grant is the row's own while it is neither revoked nor expired; in a database grown from an empty one it is what the family was founded with, and the family is not dead |
| ScopeLists.RoundTrip | crates/aver-server/src/auth.rs:121-127 | A scope list is decoded as it was encoded if and only if every scope is non-empty and free of whitespace |
| ScopeLists.Normalised | crates/aver-server/src/auth.rs:121-127 | What was decoded once survives every further encode and decode |
| Tokens.StepSays | crates/aver-server/src/auth.rs:440-675 | Every call on the columns of the rows: an exchange issues exactly for a stored, unused code of that client, challenge and redirect URI before its expiry, otherwise names the first failing check and changes nothing; a refresh issues exactly for a stored, unrevoked token before its expiry; issued rows last 3600 and 2592000 seconds, codes 600 |
| ScopeLists.SeparatorsAre | crates/aver-server/src/auth.rs:121-127 | The five ASCII white-space characters, and no other, separate scopes |
| ScopeLists.JoinedBySpaces | crates/aver-server/src/auth.rs:121-127 | Scopes are joined by one space each |
| EditDistance.TwoRows | crates/aver-core/src/ontology.rs:42-59 | The two-row loop computes the recursive Levenshtein definition |
| EditDistance.DistanceIsShortestScript | crates/aver-core/src/ontology.rs:42-59 | The distance is the length of a shortest insert/delete/substitute script |
| EditDistance.BestScript | crates/aver-core/src/ontology.rs:42-59 | A script of that length exists |
| EditDistance.NoShorterScript | crates/aver-core/src/ontology.rs:42-59 | and none is shorter |
| EditDistance.ZeroIffEqual | crates/aver-core/src/ontology.rs:42-59 | Zero only on equal strings |
| EditDistance.Symmetric | crates/aver-core/src/ontology.rs:42-59 | Symmetric |
| EditDistance.Triangle | crates/aver-core/src/ontology.rs:42-59 | Satisfies the triangle inequality |
| Suggestions.Suggest | crates/aver-core/src/ontology.rs:74-121 | The hinted candidate if there is one; otherwise the nearest by (distance, byte length, name), suggested exactly when within 1 edit, 2 if a name is over 4 bytes, 3 if one is over 8 |
| Suggestions.HintsAre | crates/aver-core/src/ontology.rs:61-72 | The table of semantic hints, word by word |
| Suggestions.BestIsNearest | crates/aver-core/src/ontology.rs:90-107 | The loop's choice is the nearest candidate, then the shortest, then the least name |
| Suggestions.NormalizeSays | crates/aver-core/src/ontology.rs:32-40 | Normalising trims, and maps each character: dash and space to underscore, ASCII capitals to small letters |
| Suggestions.Utf8Says | crates/aver-core/src/ontology.rs:109-120 | Lengths count UTF-8 bytes |
| Suggestions.Best | crates/aver-core/src/ontology.rs:90-107 | The loop settles on the first minimum |
| Suggestions.BestIsUnique | crates/aver-core/src/ontology.rs:90-107 | The name settled on does not depend on the order of the candidates |
| Suggestions.ShorterRivalHidesMatch | crates/aver-core/src/ontology.rs:109-120 | Where a shorter rival at the same distance misses its smaller threshold, a name within its own is not suggested |

## Left out

- SQLite, SQL text and JSON encoding: tables are maps, transactions and savepoints are snapshot and restore; a log line is what parsing it yields.
- Triggers on blank text, character sets, JSON shape, empty lists other than embeddings, and the sign of ids: live lines never trip them (the writers check the texts and lists, and minted ids are positive), and a replayed line that only such a trigger would refuse is accepted by the model.
- The privacy filter and its counters, and the enum parsers beyond the names they accept.
- Floating point: reals instead, so rounding in sums, products and the stored decimals is not captured, nor are `NaN` and infinities (which a backfilled vector could carry).
- The exponential decay of INFERRED confidences: the factor for each claim is an argument of the call, between 0 and 1.
- Two processes interleaving inside one writer call (a promotion that reads a candidate, say, before its transaction begins): calls are atomic, as one `Store` makes them.
- Id monotonicity across restarts: only the last line of each active log seeds the generator; runs start from a fresh store.
- Crashes between append and commit: the log is ahead then by lines that do apply, and no equality is claimed; the log-ahead theorems speak of calls that return an error.
- Store.Store.MergeDuplicateSourceRefs: groups are merged in ascending order of their lowest id; the query's grouping order is not modelled, and no two groups touch the same row.
- DiskReplay.DiskRebuildsLiveRun: the JSON codec is a parameter, assumed to give back the records the run wrote.
- DiskReplay.DiskReplaysExactly: the same codec parameter.
- DiskReplay.CrashedDiskReplaysExactly: the same; and that the processes write the lines of the run, in its order, is a hypothesis, since `Rotation` does not say which process makes which call.
- Observation and marker hashes are arguments; a marker whose hash is already present is one of the cases of LogAhead.LogAheadExactly.
- SeriesFiles.SeriesDirectory.NextRotationIndex: indexes are unbounded; the overflow of a 32-bit index and file names not written by the program (signs, leading zeros) are not modelled.
- SeriesFiles.SeriesDirectory.MaybeRotate: torn writes, `fsync`, gzip bytes and the lock primitive are not modelled; renames and single line appends are atomic and the codec is lossless.
- Communities.DetectCommunities: community ids are joined names and are not claimed to be distinct.
- The shipped type lists themselves: the theorems about seeding speak of any list.
- Tokens.RunKeepsInv: starts from an empty database, so rows migrated with an empty family id are outside it; calls are atomic, and hashing is the identity.
- Tokens.RevocationKillsGrant: speaks of families that exist; a code issued before the revocation and exchanged after it founds a new family.
- PKCE: the challenge computed from the verifier is an argument of the exchange.
- Consents' `last_used_at`, users, clients, browser sessions and redirect-URI checks: lookups and single-row updates.
- Proposals from extractors and observers, recall, ranking, vector search, drift snapshots, migrations and their version arithmetic: reads and glue that would only add easy members.
- HTTP, MCP tools, consent pages, command line and evaluation harness: plumbing.
