/** What replay makes of the logs of any live run, calls that left a log ahead of the database included. */
module Recovery {
  import opened Prelude
  import opened Records
  import opened Projection
  import opened Consolidation
  import opened Writers
  import opened Runs
  import opened LiveRuns
  import opened ReplayTheorem
  import opened LogAhead
  import opened Replay

  // ----- replay that leaves out what does not apply -----

  /** A line that applies is applied; one that does not is left out, whatever it wrote rolled back. */
  ghost function Skip(db: Database, r: LogRecord): Database {
    if ApplyRecord(db, r).result.Ok? then ApplyRecord(db, r).state else db
  }

  ghost function SkipLines(db: Database, lines: seq<LogRecord>): Database
    decreases |lines|
  {
    if lines == [] then db else Skip(SkipLines(db, lines[..|lines| - 1]), lines[|lines| - 1])
  }

  lemma OneMoreSkipped(db: Database, lines: seq<LogRecord>, r: LogRecord)
    ensures SkipLines(db, lines + [r]) == Skip(SkipLines(db, lines), r)
  {
    assert (lines + [r])[..|lines|] == lines;
  }

  lemma {:induction false} SkipInTwoParts(db: Database, a: seq<LogRecord>, b: seq<LogRecord>)
    ensures SkipLines(db, a + b) == SkipLines(SkipLines(db, a), b)
    decreases |b|
  {
    if b == [] {
      assert a + b == a;
    } else {
      assert (a + b)[..|a + b| - 1] == a + b[..|b| - 1];
      SkipInTwoParts(db, a, b[..|b| - 1]);
    }
  }

  // ----- each series sees its own tables -----

  ghost predicate AllOf(series: Series, lines: seq<LogRecord>) {
    forall i :: 0 <= i < |lines| ==> SeriesOf(lines[i]) == series
  }

  lemma {:induction false} ClaimLogTouchesCore(db: Database, log: seq<LogRecord>)
    requires AllOf(ClaimLog, log)
    ensures SkipLines(db, log) == db.(core := SkipLines(db, log).core)
    ensures db.core.claims.Keys <= SkipLines(db, log).core.claims.Keys
    decreases |log|
  {
    if log != [] {
      ClaimLogTouchesCore(db, log[..|log| - 1]);
      ClaimsStay(SkipLines(db, log[..|log| - 1]).core, log[|log| - 1]);
    }
  }

  /** The promotions among these lines find the same claims in both tables. */
  ghost predicate SameForPromotions(a: Claims, b: Claims, events: seq<LogRecord>) {
    forall i :: 0 <= i < |events| && events[i].PromoteCandidate? ==>
        (events[i].claimId in a <==> events[i].claimId in b)
  }

  lemma {:induction false} EventLogSeesClaimIds(db: Database, core: ClaimTables, events: seq<LogRecord>)
    requires AllOf(EventLog, events) && SameForPromotions(db.core.claims, core.claims, events)
    ensures SkipLines(db.(core := core), events) == SkipLines(db, events).(core := core)
    ensures SkipLines(db, events) == db.(episodic := SkipLines(db, events).episodic)
    decreases |events|
  {
    if events != [] {
      EventLogSeesClaimIds(db, core, events[..|events| - 1]);
      EventSeesClaimIds(SkipLines(db, events[..|events| - 1]), core, events[|events| - 1]);
    }
  }

  lemma EventSeesClaimIds(db: Database, core: ClaimTables, r: LogRecord)
    requires SeriesOf(r) == EventLog
    requires r.PromoteCandidate? ==> (r.claimId in db.core.claims <==> r.claimId in core.claims)
    ensures Skip(db.(core := core), r) == Skip(db, r).(core := core)
    ensures Skip(db, r) == db.(episodic := Skip(db, r).episodic)
  {
  }

  lemma {:induction false} ObservationLogSeesNotes(db: Database, other: Database, lines: seq<LogRecord>)
    requires AllOf(ObservationLog, lines) && db.notes == other.notes
    ensures SkipLines(other, lines) == other.(notes := SkipLines(db, lines).notes)
    decreases |lines|
  {
    if lines != [] { ObservationLogSeesNotes(db, other, lines[..|lines| - 1]); }
  }

  // ----- the invariant of a run -----

  ghost predicate SeriesApart(s: Live) {
    AllOf(ClaimLog, s.log) && AllOf(EventLog, s.events) && AllOf(ObservationLog, s.observations)
  }

  /** A promotion names a claim id already minted. */
  ghost predicate PromotionsBounded(events: seq<LogRecord>, last: int) {
    forall i :: 0 <= i < |events| && events[i].PromoteCandidate? ==> events[i].claimId <= last
  }

  /** Leaving out what does not apply, the three logs one after the other give the live tables. */
  ghost predicate Recovers(seed: Database, s: Live) {
    SeriesApart(s) && LogGives(seed, s.db, s.log) && EventsGive(seed, s.db, s.events)
      && NotesGive(seed, s.db, s.observations)
  }

  ghost predicate LogGives(seed: Database, db: Database, log: seq<LogRecord>) {
    SkipLines(seed, log) == seed.(core := db.core)
  }

  ghost predicate EventsGive(seed: Database, db: Database, events: seq<LogRecord>) {
    SkipLines(seed.(core := db.core), events) == seed.(core := db.core, episodic := db.episodic)
  }

  ghost predicate NotesGive(seed: Database, db: Database, observations: seq<LogRecord>) {
    SkipLines(db.(notes := seed.notes), observations) == db
  }

  /** No promotion logged so far names the claim the line would add. */
  ghost predicate NewToPromotions(events: seq<LogRecord>, r: LogRecord) {
    forall i :: 0 <= i < |events| && events[i].PromoteCandidate? && r.AddClaim? ==> events[i].claimId != r.claimId
  }

  /** Any line, whether it applies or not. */
  lemma LineRecovers(seed: Database, s: Live, r: LogRecord)
    requires Recovers(seed, s) && NewToPromotions(s.events, r)
    ensures Recovers(seed, AppendLine(s, r).(db := Skip(s.db, r)))
  {
    var next := Skip(s.db, r);
    match SeriesOf(r)
    case ClaimLog =>
      ClaimLineRecovers(seed, s.db, r, next, s.log, s.events, s.observations);
      OneMoreOf(ClaimLog, s.log, r);
      Together(seed, AppendLine(s, r).(db := next), next, s.log + [r], s.events, s.observations);
    case EventLog =>
      EventLineRecovers(seed, s.db, r, next, s.log, s.events, s.observations);
      OneMoreOf(EventLog, s.events, r);
      Together(seed, AppendLine(s, r).(db := next), next, s.log, s.events + [r], s.observations);
    case ObservationLog =>
      ObservationLineRecovers(seed, s.db, r, next, s.log, s.events, s.observations);
      OneMoreOf(ObservationLog, s.observations, r);
      Together(seed, AppendLine(s, r).(db := next), next, s.log, s.events, s.observations + [r]);
  }

  lemma OneMoreOf(series: Series, lines: seq<LogRecord>, r: LogRecord)
    requires AllOf(series, lines) && SeriesOf(r) == series
    ensures AllOf(series, lines + [r])
  {
  }

  lemma Together(seed: Database, t: Live, db: Database, log: seq<LogRecord>, events: seq<LogRecord>,
                 observations: seq<LogRecord>)
    requires t.db == db && t.log == log && t.events == events && t.observations == observations
    requires AllOf(ClaimLog, log) && AllOf(EventLog, events) && AllOf(ObservationLog, observations)
    requires LogGives(seed, db, log) && EventsGive(seed, db, events) && NotesGive(seed, db, observations)
    ensures Recovers(seed, t)
  {
  }

  /** A line is decided by its own series' tables, events by the claim ids besides. */
  lemma SkipSees(a: Database, b: Database, r: LogRecord)
    requires match SeriesOf(r)
             case ClaimLog => a.core == b.core
             case EventLog => a.core == b.core && a.episodic == b.episodic
             case ObservationLog => a.notes == b.notes
    ensures Skip(a, r) == match SeriesOf(r)
                          case ClaimLog => a.(core := Skip(b, r).core)
                          case EventLog => a.(episodic := Skip(b, r).episodic)
                          case ObservationLog => a.(notes := Skip(b, r).notes)
  {
  }

  lemma OnlyItsClaim(core: ClaimTables, r: LogRecord)
    requires SeriesOf(r) == ClaimLog
    ensures var after := ApplyCore(core, r).state.claims.Keys;
            core.claims.Keys <= after <= core.claims.Keys + (if r.AddClaim? then {r.claimId} else {})
  {
    ClaimsStay(core, r);
    if r.SupersedeClaims? { SupersedeKeepsKeys(core.claims, r.claimIds); }
    else if r.DecayConfidence? { DecayKeepsKeys(core.claims, r.changes); }
  }

  lemma ClaimLineRecovers(seed: Database, db: Database, r: LogRecord, next: Database, log: seq<LogRecord>,
                          events: seq<LogRecord>, observations: seq<LogRecord>)
    requires LogGives(seed, db, log) && EventsGive(seed, db, events) && NotesGive(seed, db, observations)
    requires AllOf(EventLog, events) && AllOf(ObservationLog, observations)
    requires NewToPromotions(events, r) && SeriesOf(r) == ClaimLog && next == Skip(db, r)
    ensures LogGives(seed, next, log + [r]) && EventsGive(seed, next, events) && NotesGive(seed, next, observations)
  {
    SkipSees(db, db, r);
    OneMoreSkipped(seed, log, r);
    SkipSees(seed.(core := db.core), db, r);
    MoreClaimsSameEvents(seed, db, r, next, events);
    SameNotes(seed, db, next, observations);
  }

  lemma MoreClaimsSameEvents(seed: Database, db: Database, r: LogRecord, next: Database, events: seq<LogRecord>)
    requires EventsGive(seed, db, events) && AllOf(EventLog, events) && NewToPromotions(events, r)
    requires SeriesOf(r) == ClaimLog && next == Skip(db, r) && next.episodic == db.episodic
    ensures EventsGive(seed, next, events)
  {
    var at := seed.(core := db.core);
    OnlyItsClaim(db.core, r);
    EventLogSeesClaimIds(at, next.core, events);
    assert at.(core := next.core) == seed.(core := next.core);
  }

  lemma SameNotes(seed: Database, db: Database, next: Database, observations: seq<LogRecord>)
    requires NotesGive(seed, db, observations) && AllOf(ObservationLog, observations) && next.notes == db.notes
    ensures NotesGive(seed, next, observations)
  {
    ObservationLogSeesNotes(db.(notes := seed.notes), next.(notes := seed.notes), observations);
  }

  lemma EventLineRecovers(seed: Database, db: Database, r: LogRecord, next: Database, log: seq<LogRecord>,
                          events: seq<LogRecord>, observations: seq<LogRecord>)
    requires LogGives(seed, db, log) && EventsGive(seed, db, events) && NotesGive(seed, db, observations)
    requires AllOf(ObservationLog, observations) && SeriesOf(r) == EventLog && next == Skip(db, r)
    ensures LogGives(seed, next, log) && EventsGive(seed, next, events + [r]) && NotesGive(seed, next, observations)
  {
    SkipSees(db, db, r);
    OneMoreSkipped(seed.(core := db.core), events, r);
    SkipSees(seed.(core := db.core, episodic := db.episodic), db, r);
    SameNotes(seed, db, next, observations);
  }

  lemma ObservationLineRecovers(seed: Database, db: Database, r: LogRecord, next: Database, log: seq<LogRecord>,
                                events: seq<LogRecord>, observations: seq<LogRecord>)
    requires LogGives(seed, db, log) && EventsGive(seed, db, events) && NotesGive(seed, db, observations)
    requires SeriesOf(r) == ObservationLog && next == Skip(db, r)
    ensures LogGives(seed, next, log) && EventsGive(seed, next, events) && NotesGive(seed, next, observations + [r])
  {
    SkipSees(db, db, r);
    OneMoreSkipped(db.(notes := seed.notes), observations, r);
    assert next.(notes := seed.notes) == db.(notes := seed.notes);
  }

  lemma RecoveredReplays(seed: Database, s: Live)
    requires Recovers(seed, s)
    ensures SkipLines(seed, ReplayOrder(s)) == s.db
  {
    SkipInTwoParts(seed, s.log, s.events);
    SkipInTwoParts(seed, s.log + s.events, s.observations);
    assert seed.(core := s.db.core, episodic := s.db.episodic) == s.db.(notes := seed.notes);
  }

  // ----- one call -----

  /** A promotion whose claim line applies and whose decision does not fit: both lines are appended, the second
      fails, and the database takes the claim back while the log keeps it. */
  ghost predicate Resurrects(s: Live, op: Op) {
    && op.Promote? && PlanOf(s, op).Write? && !DecisionFits(op.decision, "promote")
    && (op.attribution.Some? ==> Within(op.attribution.value.1))
    && var c := s.db.episodic.candidates[op.candidateId];
       !Stale(s.db.core.entities, c.subject, op.ts) && !Stale(s.db.core.entities, c.object_, op.ts)
  }

  lemma PromotionLines(s: Live, op: Op)
    requires Healthy(s.db, s.lastId) && Grounded(s.db.core) && op.Promote? && PlanOf(s, op).Write?
    ensures var lastId, records := PlanOf(s, op).lastId, PlanOf(s, op).records;
            && lastId > s.lastId && |records| == 2
            && records[0].AddClaim? && records[1].PromoteCandidate?
            && records[0].claimId == records[1].claimId == lastId
            && records[1].decision == op.decision && records[1].candidateId == op.candidateId
            && records[1].candidateId in s.db.episodic.candidates
            && s.db.episodic.candidates[records[1].candidateId].status == Pending
            && (!DecisionFits(op.decision, "promote") ==>
                (ApplyRecord(s.db, records[0]).result.Ok? <==> Resurrects(s, op)))
  {
    PromotionIsPlanned(s, op);
    PlannedPromotionLines(s, op);
  }

  lemma PlannedPromotionLines(s: Live, op: Op)
    requires Healthy(s.db, s.lastId) && Grounded(s.db.core) && op.Promote? && PlanPromotion(s, op).Write?
    ensures var lastId, records := PlanPromotion(s, op).lastId, PlanPromotion(s, op).records;
            && lastId > s.lastId && |records| == 2
            && records[0].AddClaim? && records[1].PromoteCandidate?
            && records[0].claimId == records[1].claimId == lastId
            && records[1].decision == op.decision && records[1].candidateId == op.candidateId
            && records[1].candidateId in s.db.episodic.candidates
            && s.db.episodic.candidates[records[1].candidateId].status == Pending
            && (!DecisionFits(op.decision, "promote") ==>
                (ApplyRecord(s.db, records[0]).result.Ok? <==> Resurrects(s, op)))
  {
    var plan := PlanPromotion(s, op);
    PromotionIsPlanned(s, op);
    var c := s.db.episodic.candidates[op.candidateId];
    assert CandidateSound(s.db.core.claims, c) && c.status == Pending;
    var p := if op.attribution.Some? then op.attribution.value.0 else Inferred;
    ClaimApplies(s.db.core, plan.records[0], s.db.episodic.events[c.eventId].agentKind, p);
  }

  /** The invariant of a run, calls that left a log ahead included. */
  ghost predicate Recoverable(seed: Database, s: Live) {
    Healthy(s.db, s.lastId) && Grounded(s.db.core) && Recovers(seed, s) && PromotionsBounded(s.events, s.lastId)
  }

  ghost predicate NoNewClaims(records: seq<LogRecord>) {
    forall i :: 0 <= i < |records| ==> !records[i].AddClaim?
  }

  lemma BoundedAppend(s: Live, r: LogRecord, last: int)
    requires PromotionsBounded(s.events, s.lastId) && s.lastId <= last && (r.PromoteCandidate? ==> r.claimId <= last)
    ensures PromotionsBounded(AppendLine(s, r).events, last)
  {
  }

  /** Lines that all apply, none of which adds a claim. */
  lemma {:induction false} AppliedLinesRecover(seed: Database, s: Live, records: seq<LogRecord>)
    requires Recovers(seed, s) && NoNewClaims(records) && ApplyAll(s.db, records).result.Ok?
    requires PromotionsBounded(s.events, s.lastId) && PromotionsBounded(records, s.lastId)
    ensures var t := AppendAll(s, records).(db := ApplyAll(s.db, records).state);
            Recovers(seed, t) && PromotionsBounded(t.events, s.lastId)
    decreases |records|
  {
    if records == [] {
      assert AppendAll(s, records).(db := ApplyAll(s.db, records).state) == s;
    } else {
      var r := records[0];
      LineRecovers(seed, s, r);
      BoundedAppend(s, r, s.lastId);
      var next := AppendLine(s, r).(db := Skip(s.db, r));
      AppliedLinesRecover(seed, next, records[1..]);
      AppendIgnoresDatabase(AppendLine(s, r), next.db, records[1..]);
    }
  }

  lemma SinglePlan(s: Live, op: Op)
    requires Healthy(s.db, s.lastId) && PlanOf(s, op).Write? && !op.Promote? && !op.MergeDuplicates?
             && !op.SupersedeStale?
    ensures var lastId, records := PlanOf(s, op).lastId, PlanOf(s, op).records;
            && lastId >= s.lastId && |records| == 1 && !records[0].PromoteCandidate?
            && (records[0].AddClaim? ==> records[0].claimId == lastId > s.lastId)
  {
    OneLinePlanIsSound(s, op);
  }

  lemma StepIsCommit(s: Live, op: Op, lastId: int, records: seq<LogRecord>)
    requires PlanOf(s, op) == Write(lastId, records)
    ensures Step(s, op) == Commit(s.(lastId := lastId), records)
  {
  }

  lemma LineCommitRecovers(seed: Database, s: Live, r: LogRecord)
    requires Recovers(seed, s) && NewToPromotions(s.events, r)
    ensures Recovers(seed, Commit(s, [r]).live) && Commit(s, [r]).live.events == AppendLine(s, r).events
    ensures Commit(s, [r]).live.lastId == s.lastId
  {
    CommitOne(s, r);
    LineRecovers(seed, s, r);
    assert Commit(s, [r]).live == AppendLine(s, r).(db := Skip(s.db, r));
  }

  lemma SingleRecovers(seed: Database, s: Live, op: Op)
    requires Recoverable(seed, s) && PlanOf(s, op).Write? && !op.Promote? && !op.MergeDuplicates? && !op.SupersedeStale?
    ensures var t := Step(s, op).live; Recovers(seed, t) && PromotionsBounded(t.events, t.lastId)
  {
    SinglePlan(s, op);
    var lastId, r := PlanOf(s, op).lastId, PlanOf(s, op).records[0];
    assert PlanOf(s, op).records == [r];
    StepIsCommit(s, op, lastId, [r]);
    LineCommitRecovers(seed, s.(lastId := lastId), r);
    BoundedAppend(s, r, lastId);
  }

  ghost predicate OnlySweeps(records: seq<LogRecord>) {
    forall i :: 0 <= i < |records| ==> records[i].MergeSourceRefs? || records[i].SupersedeClaims?
  }

  lemma SweepFirst(r: LogRecord, records: seq<LogRecord>)
    requires OnlySweeps(records) && (r.MergeSourceRefs? || r.SupersedeClaims?)
    ensures OnlySweeps([r] + records)
  {
  }

  lemma {:induction false} MergeLinesAreSweeps(ts: int, claims: Claims, ids: seq<int>)
    requires AllIn(ids, claims)
    ensures OnlySweeps(MergeRecords(ts, claims, ids))
    decreases |ids|
  {
    if ids != [] {
      var rest := ids[1..];
      assert forall k :: 0 <= k < |rest| ==> rest[k] == ids[k + 1];
      MergeLinesAreSweeps(ts, claims, rest);
      SweepFirst(MergeRecord(ts, claims, ids[0]), MergeRecords(ts, claims, rest));
    }
  }

  lemma StaleLinesAreSweeps(ts: int, a: set<int>, b: set<int>)
    ensures OnlySweeps(SupersedeRecords(ts, a) + SupersedeRecords(ts, b))
  {
  }

  lemma SweepPlan(s: Live, op: Op)
    requires (op.MergeDuplicates? || op.SupersedeStale?) && PlanOf(s, op).Write?
    ensures PlanOf(s, op).lastId == s.lastId && OnlySweeps(PlanOf(s, op).records)
  {
    var claims := s.db.core.claims;
    if op.MergeDuplicates? {
      MergeLinesAreSweeps(op.ts, claims, Ascending(Survivors(claims)));
    } else {
      assert PlanOf(s, op) == PlanStale(s, op.ts);
      StaleLinesAreSweeps(op.ts, DuplicateIds(claims), ConflictIds(s.db.core.vocabulary, DuplicatePass(claims)));
    }
  }

  lemma SweepLinesRecover(seed: Database, s: Live, records: seq<LogRecord>)
    requires Recovers(seed, s) && OnlySweeps(records) && ApplyAll(s.db, records).result.Ok?
    requires PromotionsBounded(s.events, s.lastId)
    ensures var t := Commit(s, records).live; Recovers(seed, t) && PromotionsBounded(t.events, t.lastId)
  {
    AppliedLinesRecover(seed, s, records);
    AppendKeepsDatabase(s, records);
  }

  lemma SweepRecovers(seed: Database, s: Live, op: Op)
    requires Recoverable(seed, s) && PlanOf(s, op).Write? && (op.MergeDuplicates? || op.SupersedeStale?)
    ensures var t := Step(s, op).live; Recovers(seed, t) && PromotionsBounded(t.events, t.lastId)
  {
    var records := PlanOf(s, op).records;
    SweepPlan(s, op);
    SweepNeverTrips(s, op);
    LinesApplyUnlessTripped(s, op);
    SweepStep(s, op, records);
    SweepLinesRecover(seed, s, records);
  }

  lemma SweepNeverTrips(s: Live, op: Op)
    requires Sweep(op)
    ensures !Trips(s, op)
  {
    assert !Minting(op) && !Updating(op);
  }

  lemma SweepStep(s: Live, op: Op, records: seq<LogRecord>)
    requires PlanOf(s, op) == Write(s.lastId, records)
    ensures Step(s, op) == Commit(s, records)
  {
    assert s.(lastId := s.lastId) == s;
  }

  /** Both lines of a promotion, which apply together or, short of a resurrection, fail together. */
  lemma PairRecovers(seed: Database, s: Live, claim: LogRecord, promotion: LogRecord)
    requires Recovers(seed, s) && claim.AddClaim? && promotion.PromoteCandidate? && promotion.claimId == claim.claimId
    requires NewToPromotions(s.events, claim) && claim.claimId !in s.db.core.claims
    requires promotion.candidateId in s.db.episodic.candidates
    requires s.db.episodic.candidates[promotion.candidateId].status == Pending
    requires ApplyRecord(s.db, claim).result.Ok? ==> DecisionFits(promotion.decision, "promote")
    ensures Recovers(seed, Commit(s, [claim, promotion]).live)
  {
    var first := AppendLine(s, claim).(db := Skip(s.db, claim));
    var second := AppendLine(first, promotion).(db := Skip(first.db, promotion));
    LineRecovers(seed, s, claim);
    PromotionLineRecovers(seed, first, promotion, second);
    PairEnds(s, claim, promotion, first, second);
  }

  lemma PromotionLineRecovers(seed: Database, s: Live, promotion: LogRecord, t: Live)
    requires Recovers(seed, s) && promotion.PromoteCandidate?
             && t == AppendLine(s, promotion).(db := Skip(s.db, promotion))
    ensures Recovers(seed, t)
  {
    LineRecovers(seed, s, promotion);
  }

  lemma PairEnds(s: Live, claim: LogRecord, promotion: LogRecord, first: Live, second: Live)
    requires claim.AddClaim? && promotion.PromoteCandidate? && promotion.claimId == claim.claimId
    requires claim.claimId !in s.db.core.claims && promotion.candidateId in s.db.episodic.candidates
    requires s.db.episodic.candidates[promotion.candidateId].status == Pending
    requires ApplyRecord(s.db, claim).result.Ok? ==> DecisionFits(promotion.decision, "promote")
    requires first == AppendLine(s, claim).(db := Skip(s.db, claim))
    requires second == AppendLine(first, promotion).(db := Skip(first.db, promotion))
    ensures Commit(s, [claim, promotion]).live == second
  {
    PairCommits(s, claim, promotion);
  }

  lemma PairCommits(s: Live, claim: LogRecord, promotion: LogRecord)
    requires claim.AddClaim? && promotion.PromoteCandidate? && promotion.claimId == claim.claimId
    requires claim.claimId !in s.db.core.claims && promotion.candidateId in s.db.episodic.candidates
    requires s.db.episodic.candidates[promotion.candidateId].status == Pending
    requires ApplyRecord(s.db, claim).result.Ok? ==> DecisionFits(promotion.decision, "promote")
    ensures Commit(s, [claim, promotion]).live ==
            AppendLine(AppendLine(s, claim), promotion).(db := Skip(Skip(s.db, claim), promotion))
  {
    CommitTwo(s, claim, promotion);
    PromotionNeedsItsClaim(Skip(s.db, claim), promotion);
    if ApplyRecord(s.db, claim).result.Ok? { ClaimIsThere(s.db, claim); }
  }

  lemma PromotionRecovers(seed: Database, s: Live, op: Op)
    requires Recoverable(seed, s) && op.Promote? && PlanOf(s, op).Write? && !Resurrects(s, op)
    ensures var t := Step(s, op).live; Recovers(seed, t) && PromotionsBounded(t.events, t.lastId)
  {
    PromotionLines(s, op);
    var lastId, claim, promotion := PlanOf(s, op).lastId, PlanOf(s, op).records[0], PlanOf(s, op).records[1];
    assert PlanOf(s, op).records == [claim, promotion];
    StepIsCommit(s, op, lastId, [claim, promotion]);
    MintedPairRecovers(seed, s, lastId, claim, promotion);
  }

  /** The pair committed under the id just minted. */
  lemma MintedPairRecovers(seed: Database, s: Live, id: int, claim: LogRecord, promotion: LogRecord)
    requires Recovers(seed, s) && PromotionsBounded(s.events, s.lastId) && IdsBounded(s.db, s.lastId) && id > s.lastId
    requires claim.AddClaim? && promotion.PromoteCandidate? && promotion.claimId == claim.claimId == id
    requires promotion.candidateId in s.db.episodic.candidates
    requires s.db.episodic.candidates[promotion.candidateId].status == Pending
    requires ApplyRecord(s.db, claim).result.Ok? ==> DecisionFits(promotion.decision, "promote")
    ensures var t := Commit(s.(lastId := id), [claim, promotion]).live;
            Recovers(seed, t) && PromotionsBounded(t.events, t.lastId)
  {
    var minted := s.(lastId := id);
    PairRecovers(seed, minted, claim, promotion);
    PairCommits(minted, claim, promotion);
    BoundedPair(s.events, promotion, s.lastId, id);
  }

  lemma BoundedPair(events: seq<LogRecord>, promotion: LogRecord, last: int, lastId: int)
    requires PromotionsBounded(events, last) && last <= lastId && promotion.PromoteCandidate?
             && promotion.claimId <= lastId
    ensures PromotionsBounded(events + [promotion], lastId)
  {
  }

  lemma StepRecovers(seed: Database, s: Live, op: Op)
    requires Recoverable(seed, s) && !Resurrects(s, op)
    ensures Recoverable(seed, Step(s, op).live)
  {
    StepMovesForward(s, op);
    StepStaysGrounded(s, op);
    if PlanOf(s, op).Write? {
      if op.Promote? { PromotionRecovers(seed, s, op); }
      else if op.MergeDuplicates? || op.SupersedeStale? { SweepRecovers(seed, s, op); }
      else { SingleRecovers(seed, s, op); }
    }
  }

  // ----- whole runs -----

  ghost predicate NoneResurrects(s: Live, ops: seq<Op>)
    decreases |ops|
  {
    ops != [] ==>
      NoneResurrects(s, ops[..|ops| - 1]) && !Resurrects(Run(s, ops[..|ops| - 1]), ops[|ops| - 1])
  }

  lemma {:induction false} RunRecovers(s: Live, ops: seq<Op>)
    requires Fresh(s) && Grounded(s.db.core) && NoneResurrects(s, ops)
    ensures Recoverable(s.db, Run(s, ops))
    decreases |ops|
  {
    if ops == [] {
      assert s.db.(core := s.db.core) == s.db;
    } else {
      RunRecovers(s, ops[..|ops| - 1]);
      StepRecovers(s.db, Run(s, ops[..|ops| - 1]), ops[|ops| - 1]);
    }
  }

  // ----- what holds of every run, whatever its calls left -----

  ghost predicate Tidy(s: Live) {
    SeriesApart(s) && PromotionsBounded(s.events, s.lastId)
  }

  /** Claim ids are minted: only the first line of a call adds a claim, under an id past all before. */
  ghost predicate Minted(records: seq<LogRecord>, before: int, last: int) {
    && before <= last
    && forall i :: 0 <= i < |records| ==>
         && (records[i].AddClaim? ==> i == 0 && records[i].claimId == last > before)
         && (records[i].PromoteCandidate? ==> records[i].claimId <= last)
  }

  lemma PlanIsMinted(s: Live, op: Op)
    requires Healthy(s.db, s.lastId) && Grounded(s.db.core) && PlanOf(s, op).Write?
    ensures Minted(PlanOf(s, op).records, s.lastId, PlanOf(s, op).lastId)
  {
    if op.Promote? { PromotionIsMinted(s, op); }
    else if op.MergeDuplicates? || op.SupersedeStale? { SweepPlan(s, op); }
    else { SinglePlan(s, op); }
  }

  lemma PromotionIsMinted(s: Live, op: Op)
    requires Healthy(s.db, s.lastId) && Grounded(s.db.core) && op.Promote? && PlanOf(s, op).Write?
    ensures Minted(PlanOf(s, op).records, s.lastId, PlanOf(s, op).lastId)
  {
    PromotionLines(s, op);
  }

  lemma {:induction false} AppendStaysTidy(s: Live, records: seq<LogRecord>, last: int)
    requires SeriesApart(s) && PromotionsBounded(s.events, last) && PromotionsBounded(records, last)
    ensures SeriesApart(AppendAll(s, records)) && PromotionsBounded(AppendAll(s, records).events, last)
    decreases |records|
  {
    if records != [] {
      assert PromotionsBounded(records[1..], last);
      AppendStaysTidy(AppendLine(s, records[0]), records[1..], last);
    }
  }

  lemma CommitStaysTidy(s: Live, records: seq<LogRecord>, before: int)
    requires SeriesApart(s) && PromotionsBounded(s.events, before) && Minted(records, before, s.lastId)
    ensures Tidy(Commit(s, records).live)
  {
    AppendStaysTidy(s, records, s.lastId);
    AppendKeepsDatabase(s, records);
  }

  /** What is known of any point of any run from a fresh store. */
  ghost predicate Sane(s: Live) {
    Healthy(s.db, s.lastId) && Grounded(s.db.core) && Tidy(s)
  }

  lemma StepStaysSane(s: Live, op: Op)
    requires Sane(s)
    ensures Sane(Step(s, op).live)
  {
    StepMovesForward(s, op);
    StepStaysGrounded(s, op);
    if PlanOf(s, op).Write? {
      var lastId, records := PlanOf(s, op).lastId, PlanOf(s, op).records;
      PlanIsMinted(s, op);
      StepIsCommit(s, op, lastId, records);
      CommitStaysTidy(s.(lastId := lastId), records, s.lastId);
    }
  }

  lemma {:induction false} RunStaysSane(s: Live, ops: seq<Op>)
    requires Fresh(s) && Grounded(s.db.core)
    ensures Sane(Run(s, ops))
    decreases |ops|
  {
    if ops != [] {
      RunStaysSane(s, ops[..|ops| - 1]);
      StepStaysSane(Run(s, ops[..|ops| - 1]), ops[|ops| - 1]);
    }
  }

  // ----- a resurrected claim -----

  /** Replay of the claim log creates a claim that the live database does not have and never will. */
  ghost predicate HauntedBy(seed: Database, s: Live, id: int) {
    id <= s.lastId && id !in s.db.core.claims && id in SkipLines(seed, s.log).core.claims
  }

  lemma {:induction false} OnlyAddedClaims(db: Database, records: seq<LogRecord>, id: int)
    requires id !in db.core.claims
    requires forall i :: 0 <= i < |records| && records[i].AddClaim? ==> records[i].claimId != id
    ensures id !in ApplyAll(db, records).state.core.claims
    decreases |records|
  {
    if records != [] {
      if SeriesOf(records[0]) == ClaimLog { OnlyItsClaim(db.core, records[0]); }
      OnlyAddedClaims(ApplyRecord(db, records[0]).state, records[1..], id);
    }
  }

  lemma {:induction false} AppendedLog(s: Live, records: seq<LogRecord>)
    ensures s.log <= AppendAll(s, records).log
    decreases |records|
  {
    if records != [] { AppendedLog(AppendLine(s, records[0]), records[1..]); }
  }

  lemma LongerLogKeepsClaims(seed: Database, short: seq<LogRecord>, long: seq<LogRecord>)
    requires short <= long && AllOf(ClaimLog, long)
    ensures SkipLines(seed, short).core.claims.Keys <= SkipLines(seed, long).core.claims.Keys
  {
    var rest := long[|short|..];
    assert long == short + rest;
    SkipInTwoParts(seed, short, rest);
    ClaimLogTouchesCore(SkipLines(seed, short), rest);
  }

  lemma CommitStaysHaunted(seed: Database, s: Live, before: int, records: seq<LogRecord>, id: int)
    requires SeriesApart(s) && PromotionsBounded(s.events, before) && Minted(records, before, s.lastId)
    requires id <= before && HauntedBy(seed, s, id)
    ensures HauntedBy(seed, Commit(s, records).live, id)
  {
    var t := Commit(s, records).live;
    CommitStaysTidy(s, records, before);
    AppendKeepsDatabase(s, records);
    AppendedLog(s, records);
    OnlyAddedClaims(s.db, records, id);
    LongerLogKeepsClaims(seed, s.log, t.log);
  }

  lemma StepStaysHaunted(seed: Database, s: Live, op: Op, id: int)
    requires Sane(s) && HauntedBy(seed, s, id)
    ensures HauntedBy(seed, Step(s, op).live, id)
  {
    if PlanOf(s, op).Write? {
      var lastId, records := PlanOf(s, op).lastId, PlanOf(s, op).records;
      PlanIsMinted(s, op);
      StepIsCommit(s, op, lastId, records);
      CommitStaysHaunted(seed, s.(lastId := lastId), s.lastId, records, id);
    }
  }

  lemma ResurrectionHaunts(seed: Database, s: Live, op: Op)
    requires Recoverable(seed, s) && Resurrects(s, op)
    ensures HauntedBy(seed, Step(s, op).live, Step(s, op).live.lastId)
  {
    PromotionLines(s, op);
    var lastId, claim, promotion := PlanOf(s, op).lastId, PlanOf(s, op).records[0], PlanOf(s, op).records[1];
    var minted := s.(lastId := lastId);
    assert PlanOf(s, op).records == [claim, promotion];
    StepIsCommit(s, op, lastId, [claim, promotion]);
    PairHaunts(seed, minted, claim, promotion);
  }

  lemma PairHaunts(seed: Database, s: Live, claim: LogRecord, promotion: LogRecord)
    requires Recovers(seed, s) && claim.AddClaim? && claim.claimId == s.lastId && claim.claimId !in s.db.core.claims
    requires promotion.PromoteCandidate? && !DecisionFits(promotion.decision, "promote")
    requires ApplyRecord(s.db, claim).result.Ok?
    ensures var t := Commit(s, [claim, promotion]).live; t.lastId == s.lastId && HauntedBy(seed, t, s.lastId)
  {
    var t := Commit(s, [claim, promotion]).live;
    CommitTwo(s, claim, promotion);
    assert t.log == s.log + [claim] && t.db == s.db && t.lastId == s.lastId;
    OneMoreSkipped(seed, s.log, claim);
    ClaimIsThere(s.db, claim);
    assert claim.claimId in Skip(seed.(core := s.db.core), claim).core.claims;
  }

  lemma {:induction false} ResurrectionStays(s: Live, ops: seq<Op>) returns (id: int)
    requires Fresh(s) && Grounded(s.db.core) && !NoneResurrects(s, ops)
    ensures HauntedBy(s.db, Run(s, ops), id)
    decreases |ops|
  {
    var front, op := ops[..|ops| - 1], ops[|ops| - 1];
    if NoneResurrects(s, front) {
      RunRecovers(s, front);
      ResurrectionHaunts(s.db, Run(s, front), op);
      id := Run(s, ops).lastId;
    } else {
      id := ResurrectionStays(s, front);
      RunStaysSane(s, front);
      StepStaysHaunted(s.db, Run(s, front), op, id);
    }
  }

  lemma CoreComesFromClaimLog(seed: Database, s: Live)
    requires SeriesApart(s)
    ensures SkipLines(seed, ReplayOrder(s)).core == SkipLines(seed, s.log).core
  {
    var afterLog := SkipLines(seed, s.log);
    SkipInTwoParts(seed, s.log, s.events);
    SkipInTwoParts(seed, s.log + s.events, s.observations);
    EventLogSeesClaimIds(afterLog, afterLog.core, s.events);
    ObservationLogSeesNotes(SkipLines(afterLog, s.events), SkipLines(afterLog, s.events), s.observations);
  }

  /** Over any run from a fresh store, failed calls included, leaving out the lines that do not apply rebuilds the
      live database exactly when no promotion was refused for its decision alone. */
  lemma SkippingRebuildsExactly(s: Live, ops: seq<Op>)
    requires Fresh(s) && Grounded(s.db.core)
    ensures SkipLines(s.db, ReplayOrder(Run(s, ops))) == Run(s, ops).db <==> NoneResurrects(s, ops)
  {
    if NoneResurrects(s, ops) {
      RunRecovers(s, ops);
      RecoveredReplays(s.db, Run(s, ops));
    } else {
      var id := ResurrectionStays(s, ops);
      RunStaysSane(s, ops);
      CoreComesFromClaimLog(s.db, Run(s, ops));
    }
  }

  lemma ResurrectedClaimReplays(s: Live, ops: seq<Op>, op: Op)
    requires Fresh(s) && Grounded(s.db.core) && NoneResurrects(s, ops) && Resurrects(Run(s, ops), op)
    ensures var t := Step(Run(s, ops), op);
            && t.status == LogAhead && t.live.lastId !in t.live.db.core.claims
            && t.live.lastId in SkipLines(s.db, ReplayOrder(t.live)).core.claims
  {
    RunRecovers(s, ops);
    RunStaysSane(s, ops);
    ResurrectionHaunts(s.db, Run(s, ops), op);
    ResurrectionIsAhead(Run(s, ops), op);
    StepStaysSane(Run(s, ops), op);
    CoreComesFromClaimLog(s.db, Step(Run(s, ops), op).live);
  }

  lemma ResurrectionIsAhead(s: Live, op: Op)
    requires Healthy(s.db, s.lastId) && Grounded(s.db.core) && Resurrects(s, op)
    ensures Step(s, op).status == LogAhead
  {
    LogAheadExactly(s, op);
  }

  // ----- lines that fail -----

  /** Some line does not apply where replay, leaving out such lines, meets it. */
  ghost predicate Errs(db: Database, lines: seq<LogRecord>)
    decreases |lines|
  {
    lines != [] &&
      (Errs(db, lines[..|lines| - 1])
        || ApplyRecord(SkipLines(db, lines[..|lines| - 1]), lines[|lines| - 1]).result.Err?)
  }

  lemma OneMoreErrs(db: Database, lines: seq<LogRecord>, r: LogRecord)
    ensures Errs(db, lines + [r]) <==> Errs(db, lines) || ApplyRecord(SkipLines(db, lines), r).result.Err?
  {
    assert (lines + [r])[..|lines|] == lines;
  }

  lemma {:induction false} ErrsInTwoParts(db: Database, a: seq<LogRecord>, b: seq<LogRecord>)
    ensures Errs(db, a + b) <==> Errs(db, a) || Errs(SkipLines(db, a), b)
    decreases |b|
  {
    if b == [] {
      assert a + b == a;
    } else {
      var front, r := b[..|b| - 1], b[|b| - 1];
      assert a + b == (a + front) + [r] && b == front + [r];
      ErrsInTwoParts(db, a, front);
      SkipInTwoParts(db, a, front);
      OneMoreErrs(db, a + front, r);
      OneMoreErrs(SkipLines(db, a), front, r);
    }
  }

  lemma {:induction false} EventsErrAlike(db: Database, core: ClaimTables, events: seq<LogRecord>)
    requires AllOf(EventLog, events) && SameForPromotions(db.core.claims, core.claims, events)
    ensures Errs(db.(core := core), events) <==> Errs(db, events)
    decreases |events|
  {
    if events != [] {
      var front, r := events[..|events| - 1], events[|events| - 1];
      EventsErrAlike(db, core, front);
      EventLogSeesClaimIds(db, core, front);
      EventErrsAlike(SkipLines(db, front), core, r);
    }
  }

  lemma EventErrsAlike(db: Database, core: ClaimTables, r: LogRecord)
    requires SeriesOf(r) == EventLog
    requires r.PromoteCandidate? ==> (r.claimId in db.core.claims <==> r.claimId in core.claims)
    ensures ApplyRecord(db.(core := core), r).result == ApplyRecord(db, r).result
  {
  }

  lemma {:induction false} ObservationsErrAlike(db: Database, other: Database, lines: seq<LogRecord>)
    requires AllOf(ObservationLog, lines) && db.notes == other.notes
    ensures Errs(other, lines) <==> Errs(db, lines)
    decreases |lines|
  {
    if lines != [] {
      ObservationsErrAlike(db, other, lines[..|lines| - 1]);
      ObservationLogSeesNotes(db, other, lines[..|lines| - 1]);
    }
  }

  /** Some line of the three logs fails in replay. */
  ghost predicate SomeFails(seed: Database, s: Live) {
    var afterLog := SkipLines(seed, s.log);
    Errs(seed, s.log) || Errs(afterLog, s.events) || Errs(SkipLines(afterLog, s.events), s.observations)
  }

  lemma SomeFailsInOrder(seed: Database, s: Live)
    ensures Errs(seed, ReplayOrder(s)) <==> SomeFails(seed, s)
  {
    ErrsInTwoParts(seed, s.log, s.events);
    ErrsInTwoParts(seed, s.log + s.events, s.observations);
    SkipInTwoParts(seed, s.log, s.events);
  }

  /** The later series fail alike after one claim-log line more. */
  lemma ClaimLineKeepsFailure(afterLog: Database, r: LogRecord, events: seq<LogRecord>, observations: seq<LogRecord>)
    requires SeriesOf(r) == ClaimLog && NewToPromotions(events, r) && AllOf(EventLog, events)
             && AllOf(ObservationLog, observations)
    ensures var next := Skip(afterLog, r);
            && (Errs(next, events) <==> Errs(afterLog, events))
            && (Errs(SkipLines(next, events), observations) <==> Errs(SkipLines(afterLog, events), observations))
  {
    var next := Skip(afterLog, r);
    OnlyItsClaim(afterLog.core, r);
    assert next == afterLog.(core := next.core);
    EventsErrAlike(afterLog, next.core, events);
    EventLogSeesClaimIds(afterLog, next.core, events);
    ObservationsErrAlike(SkipLines(afterLog, events), SkipLines(next, events), observations);
  }

  /** A failing line keeps failing however the logs grow. */
  lemma LineKeepsFailure(seed: Database, s: Live, r: LogRecord)
    requires SeriesApart(s) && NewToPromotions(s.events, r) && SomeFails(seed, s)
    ensures SomeFails(seed, AppendLine(s, r))
  {
    var afterLog := SkipLines(seed, s.log);
    var afterEvents := SkipLines(afterLog, s.events);
    EventLogSeesClaimIds(afterLog, afterLog.core, s.events);
    match SeriesOf(r)
    case ClaimLog =>
      OneMoreErrs(seed, s.log, r);
      OneMoreSkipped(seed, s.log, r);
      ClaimLineKeepsFailure(afterLog, r, s.events, s.observations);
    case EventLog =>
      OneMoreErrs(afterLog, s.events, r);
      OneMoreSkipped(afterLog, s.events, r);
      ObservationsErrAlike(afterEvents, Skip(afterEvents, r), s.observations);
    case ObservationLog =>
      OneMoreErrs(afterEvents, s.observations, r);
  }

  lemma {:induction false} LinesKeepFailure(seed: Database, s: Live, records: seq<LogRecord>)
    requires SeriesApart(s) && SomeFails(seed, s)
    requires NoNewClaims(if records == [] then [] else records[1..])
    requires records != [] ==> NewToPromotions(s.events, records[0])
    ensures SomeFails(seed, AppendAll(s, records))
    decreases |records|
  {
    if records != [] {
      LineKeepsFailure(seed, s, records[0]);
      LinesKeepFailure(seed, AppendLine(s, records[0]), records[1..]);
    }
  }

  /** A line that fails in a recoverable run fails in replay. */
  lemma LineFailsAgain(seed: Database, s: Live, r: LogRecord)
    requires Recovers(seed, s) && ApplyRecord(s.db, r).result.Err?
    ensures SomeFails(seed, AppendLine(s, r))
  {
    match SeriesOf(r)
    case ClaimLog =>
      OneMoreErrs(seed, s.log, r);
    case EventLog =>
      OneMoreErrs(SkipLines(seed, s.log), s.events, r);
    case ObservationLog =>
      OneMoreErrs(SkipLines(SkipLines(seed, s.log), s.events), s.observations, r);
      assert SkipLines(SkipLines(seed, s.log), s.events) == s.db.(notes := seed.notes);
  }

  /** The same of a call's lines: one of them fails, and so one fails again. */
  lemma {:induction false} LinesFailAgain(seed: Database, s: Live, records: seq<LogRecord>)
    requires Recovers(seed, s) && ApplyAll(s.db, records).result.Err?
    requires NoNewClaims(if records == [] then [] else records[1..])
    requires records != [] ==> NewToPromotions(s.events, records[0])
    ensures SomeFails(seed, AppendAll(s, records))
    decreases |records|
  {
    var r := records[0];
    var next := AppendLine(s, r).(db := Skip(s.db, r));
    LineRecovers(seed, s, r);
    if ApplyRecord(s.db, r).result.Err? {
      LineFailsAgain(seed, s, r);
      LinesKeepFailure(seed, AppendLine(s, r), records[1..]);
    } else {
      LinesFailAgain(seed, next, records[1..]);
      AppendIgnoresDatabase(AppendLine(s, r), next.db, records[1..]);
    }
  }

  lemma AppendIsCommit(seed: Database, s: Live, records: seq<LogRecord>)
    requires SomeFails(seed, AppendAll(s, records))
    ensures SomeFails(seed, Commit(s, records).live)
  {
  }

  lemma StepFails(seed: Database, s: Live, op: Op)
    requires Sane(s) && (SomeFails(seed, s) || (Recoverable(seed, s) && Step(s, op).status == LogAhead))
    ensures SomeFails(seed, Step(s, op).live)
  {
    if PlanOf(s, op).Write? {
      var lastId, records := PlanOf(s, op).lastId, PlanOf(s, op).records;
      var minted := s.(lastId := lastId);
      PlanIsMinted(s, op);
      StepIsCommit(s, op, lastId, records);
      if SomeFails(seed, s) { LinesKeepFailure(seed, minted, records); } else { LinesFailAgain(seed, minted, records); }
      AppendIsCommit(seed, minted, records);
    }
  }

  lemma {:induction false} SuccessResurrectsNothing(s: Live, ops: seq<Op>)
    requires Fresh(s) && Grounded(s.db.core) && Succeeds(s, ops)
    ensures NoneResurrects(s, ops)
    decreases |ops|
  {
    if ops != [] {
      var front, op := ops[..|ops| - 1], ops[|ops| - 1];
      SuccessResurrectsNothing(s, front);
      RunStaysSane(s, front);
      if Resurrects(Run(s, front), op) { ResurrectionIsAhead(Run(s, front), op); }
    }
  }

  lemma {:induction false} FailureIsReplayed(s: Live, ops: seq<Op>)
    requires Fresh(s) && Grounded(s.db.core) && !Succeeds(s, ops)
    ensures SomeFails(s.db, Run(s, ops))
    decreases |ops|
  {
    var front, op := ops[..|ops| - 1], ops[|ops| - 1];
    RunStaysSane(s, front);
    if Succeeds(s, front) {
      SuccessResurrectsNothing(s, front);
      RunRecovers(s, front);
    } else {
      FailureIsReplayed(s, front);
    }
    StepFails(s.db, Run(s, front), op);
  }

  lemma {:induction false} CleanReplay(db: Database, lines: seq<LogRecord>)
    requires ReplayLines(db, lines).Some?
    ensures SkipLines(db, lines) == ReplayLines(db, lines).value && !Errs(db, lines)
    decreases |lines|
  {
    if lines != [] { CleanReplay(db, lines[..|lines| - 1]); }
  }

  /** Replay of a run's logs meets a line that does not apply exactly when a call left its log ahead. */
  lemma ReplayFailsExactly(s: Live, ops: seq<Op>)
    requires Fresh(s) && Grounded(s.db.core)
    ensures Errs(s.db, ReplayOrder(Run(s, ops))) <==> !Succeeds(s, ops)
  {
    SomeFailsInOrder(s.db, Run(s, ops));
    if Succeeds(s, ops) {
      ReplayRebuildsLiveRun(s, ops);
      CleanReplay(s.db, ReplayOrder(Run(s, ops)));
    } else {
      FailureIsReplayed(s, ops);
    }
  }

  // ----- the same of replayed files -----

  /** A strict run goes on as long as every line applies; a lenient one leaves out those that do not. */
  ghost predicate Reads(db: Database, records: seq<LogRecord>, quarantined: nat, strict: Progress, lenient: Progress) {
    Stand(SkipLines(db, records), Errs(db, records), quarantined, strict, lenient)
  }

  /** Where the two runs stand: at this database, with or without a line that failed. */
  ghost predicate Stand(db: Database, failed: bool, quarantined: nat, strict: Progress, lenient: Progress) {
    && (strict.Running? <==> !failed) && (strict.Running? ==> strict.db == db)
    && lenient.Running? && lenient.db == db
    && |lenient.report.quarantined| >= quarantined
    && (|lenient.report.quarantined| == quarantined <==> !failed)
  }

  /** What one line makes of a run: it applies and leads to `next`, or it does not. */
  ghost predicate Carries(mode: Mode, p: Progress, applies: bool, next: Database, after: Progress) {
    if p.Aborted? then after == p
    else if applies then
      after.Running? && after.db == next && after.report.quarantined == p.report.quarantined
    else if mode == Strict then after.Aborted?
    else after.Running? && after.db == p.db && |after.report.quarantined| == |p.report.quarantined| + 1
  }

  lemma LineCarries(mode: Mode, p: Progress, path: string, number: nat, line: Line)
    requires line.Parsed?
    ensures p.Aborted? ==> AfterLine(mode, p, path, number, line) == p
    ensures p.Running? ==> Carries(mode, p, ApplyRecord(p.db, line.record).result.Ok?, Skip(p.db, line.record),
                                   AfterLine(mode, p, path, number, line))
  {
  }

  lemma CarriedOn(db: Database, failed: bool, applies: bool, next: Database, quarantined: nat,
                  strict: Progress, lenient: Progress, strictAfter: Progress, lenientAfter: Progress)
    requires Stand(db, failed, quarantined, strict, lenient) && (!applies ==> next == db)
    requires Carries(Strict, strict, applies, next, strictAfter)
             && Carries(Lenient, lenient, applies, next, lenientAfter)
    ensures Stand(next, failed || !applies, quarantined, strictAfter, lenientAfter)
  {
  }

  lemma {:induction false} LinesRead(p: Progress, q: Progress, path: string, lines: seq<Line>)
    requires p.Running? && q.Running? && q.db == p.db && AllParsed(lines)
    ensures Reads(p.db, RecordsOf(lines), |q.report.quarantined|,
                  AfterLines(Strict, p, path, lines), AfterLines(Lenient, q, path, lines))
    decreases |lines|
  {
    if lines != [] {
      var front, line := lines[..|lines| - 1], lines[|lines| - 1];
      LinesRead(p, q, path, front);
      OneMoreErrs(p.db, RecordsOf(front), line.record);
      OneMoreSkipped(p.db, RecordsOf(front), line.record);
      LineReads(p.db, RecordsOf(front), |q.report.quarantined|, AfterLines(Strict, p, path, front),
                AfterLines(Lenient, q, path, front), path, |lines|, line);
    }
  }

  lemma LineReads(db: Database, records: seq<LogRecord>, quarantined: nat, strict: Progress, lenient: Progress,
                  path: string, number: nat, line: Line)
    requires Reads(db, records, quarantined, strict, lenient) && line.Parsed?
    requires SkipLines(db, records + [line.record]) == Skip(SkipLines(db, records), line.record)
    requires Errs(db, records + [line.record]) <==>
               Errs(db, records) || ApplyRecord(SkipLines(db, records), line.record).result.Err?
    ensures Reads(db, records + [line.record], quarantined,
                  AfterLine(Strict, strict, path, number, line), AfterLine(Lenient, lenient, path, number, line))
  {
    var at := SkipLines(db, records);
    LineCarries(Strict, strict, path, number, line);
    LineCarries(Lenient, lenient, path, number, line);
    CarriedOn(at, Errs(db, records), ApplyRecord(at, line.record).result.Ok?, Skip(at, line.record), quarantined,
              strict, lenient, AfterLine(Strict, strict, path, number, line),
                  AfterLine(Lenient, lenient, path, number, line));
  }

  lemma {:induction false} FilesRead(p: Progress, files: seq<LogFile>)
    requires p.Running? && FilesParsed(files)
    ensures Reads(p.db, RecordsOfFiles(files), |p.report.quarantined|, AfterFiles(Strict, p, files),
                  AfterFiles(Lenient, p, files))
    decreases |files|
  {
    if files != [] {
      var front, file := files[..|files| - 1], files[|files| - 1];
      FilesRead(p, front);
      var strict, lenient := AfterFiles(Strict, p, front), AfterFiles(Lenient, p, front);
      ErrsInTwoParts(p.db, RecordsOfFiles(front), RecordsOf(file.lines));
      SkipInTwoParts(p.db, RecordsOfFiles(front), RecordsOf(file.lines));
      FileReads(p.db, RecordsOfFiles(front), |p.report.quarantined|, strict, lenient, file);
    }
  }

  lemma FileReads(db: Database, records: seq<LogRecord>, quarantined: nat, strict: Progress, lenient: Progress,
                  file: LogFile)
    requires Reads(db, records, quarantined, strict, lenient) && AllParsed(file.lines)
    requires SkipLines(db, records + RecordsOf(file.lines)) == SkipLines(SkipLines(db, records), RecordsOf(file.lines))
    requires Errs(db, records + RecordsOf(file.lines)) <==>
               Errs(db, records) || Errs(SkipLines(db, records), RecordsOf(file.lines))
    ensures Reads(db, records + RecordsOf(file.lines), quarantined,
                  AfterLines(Strict, OpenFile(strict), file.path, file.lines),
                  AfterLines(Lenient, OpenFile(lenient), file.path, file.lines))
  {
    var p := OpenFile(if strict.Running? then strict else lenient);
    LinesRead(p, OpenFile(lenient), file.path, file.lines);
    if strict.Aborted? { AbortedLines(Strict, strict, file.path, file.lines); }
  }

  /** Strict replay of the files gets to the end exactly when no call of the run left its log ahead, and then
      rebuilds the live database. Lenient replay always gets to the end, quarantines nothing exactly then, and
      rebuilds the live database exactly when no promotion was refused for its decision alone. */
  ghost predicate ReplaysExactly(s: Live, ops: seq<Op>, files: seq<LogFile>) {
    var strict := AfterFiles(Strict, Running(s.db, EmptyReport), files);
    var lenient := AfterFiles(Lenient, Running(s.db, EmptyReport), files);
    && (strict.Running? <==> Succeeds(s, ops))
    && (strict.Running? ==> strict.db == Run(s, ops).db)
    && lenient.Running?
    && (lenient.report.quarantined == [] <==> Succeeds(s, ops))
    && (lenient.db == Run(s, ops).db <==> NoneResurrects(s, ops))
  }

  /** Replay of the files any run of live calls left, failed calls included. */
  lemma FilesReplayExactly(s: Live, ops: seq<Op>, files: seq<LogFile>)
    requires Fresh(s) && Grounded(s.db.core)
    requires FilesParsed(files) && RecordsOfFiles(files) == ReplayOrder(Run(s, ops))
    ensures ReplaysExactly(s, ops, files)
  {
    FilesRead(Running(s.db, EmptyReport), files);
    ReplayFailsExactly(s, ops);
    SkippingRebuildsExactly(s, ops);
    if Succeeds(s, ops) { SuccessResurrectsNothing(s, ops); }
  }

  // ----- a promotion refused for its decision alone -----

  /** Triage with a client that names no model: the promotion is refused and its claim rolled back, yet lenient
      replay of the files then creates that claim. */
  lemma UnnamedModelResurrects(s: Live, ops: seq<Op>, op: Op, files: seq<LogFile>)
    requires Fresh(s) && Grounded(s.db.core) && NoneResurrects(s, ops)
    requires op.Promote? && PlanOf(Run(s, ops), op).Write? && op.attribution == Some((Inferred, 0.45))
    requires op.decision.Some? && op.decision.value.choice == "promote" && Blank(op.decision.value.model)
    requires var t := Run(s, ops);
             var c := t.db.episodic.candidates[op.candidateId];
             !Stale(t.db.core.entities, c.subject, op.ts) && !Stale(t.db.core.entities, c.object_, op.ts)
    requires FilesParsed(files) && RecordsOfFiles(files) == ReplayOrder(Step(Run(s, ops), op).live)
    ensures var t := Step(Run(s, ops), op);
            var lenient := AfterFiles(Lenient, Running(s.db, EmptyReport), files);
            && t.status == LogAhead && t.live.lastId !in t.live.db.core.claims
            && lenient.Running? && t.live.lastId in lenient.db.core.claims
  {
    ResurrectedClaimReplays(s, ops, op);
    FilesRead(Running(s.db, EmptyReport), files);
  }

  /** An event, a candidate proposed from it, and its promotion by a client that names no model. */
  function Note(): Op { WriteEvent(1, 0, "s", "note", "", "cli", "me", Human, "global") }

  function Proposal(s: Live): Op { Propose(1, 0, Mint(s.lastId, 0), "a", "relates_to", "b", "global") }

  function UnnamedPromotion(s: Live): Op {
    Promote(1, 0, Mint(Mint(s.lastId, 0), 0), Some((Inferred, 0.45)), Some(Decision("", "promote")))
  }

  /** Such a promotion is two calls away from every fresh store without entities. */
  lemma UnnamedModelIsReachable(s: Live)
    requires Fresh(s) && Grounded(s.db.core) && s.db.core.entities == map[]
    ensures var ops, op := [Note(), Proposal(s)], UnnamedPromotion(s);
            NoneResurrects(s, ops) && PlanOf(Run(s, ops), op).Write? && Resurrects(Run(s, ops), op)
  {
    var note, proposal := Note(), Proposal(s);
    NoteCommits(s, note);
    OneMoreCall(s, [], note);
    assert [] + [note] == [note] && [note] + [proposal] == [note, proposal];
    ProposalCommits(Step(s, note).live, proposal);
    OneMoreCall(s, [note], proposal);
    UnnamedIsPlanned(Run(s, [note, proposal]), UnnamedPromotion(s));
  }

  lemma OneMoreCall(s: Live, ops: seq<Op>, op: Op)
    requires NoneResurrects(s, ops) && !op.Promote?
    ensures Run(s, ops + [op]) == Step(Run(s, ops), op).live && NoneResurrects(s, ops + [op])
  {
    assert (ops + [op])[..|ops|] == ops;
  }

  lemma NotBlank(text: string)
    requires text != "" && 'a' <= text[0] <= 'z'
    ensures !Blank(text)
  {
    assert !IsWhitespace(text[0]);
  }

  lemma NoteCommits(s: Live, op: Op)
    requires Fresh(s) && op == Note()
    ensures var t := Step(s, op).live;
            && t.lastId == Mint(s.lastId, 0) && t.db.core == s.db.core && t.db.episodic.candidates == map[]
            && t.lastId in t.db.episodic.events
  {
    NotBlank(op.session);
    NotBlank(op.kind);
    NotBlank(op.source);
    var id := Mint(s.lastId, 0);
    var r := RecordEvent(1, id, "s", "note", "", "cli", "me", Human.Name(), "global");
    assert PlanOf(s, op) == Write(id, [r]);
    CommitOne(s.(lastId := id), r);
  }

  lemma ProposalCommits(s: Live, op: Op)
    requires op == Propose(1, 0, s.lastId, "a", "relates_to", "b", "global")
    requires s.lastId in s.db.episodic.events && s.db.episodic.candidates == map[]
    ensures var t := Step(s, op).live;
            && t.lastId == Mint(s.lastId, 0) && t.db.core == s.db.core && t.db.episodic.events == s.db.episodic.events
            && t.db.episodic.candidates ==
                 map[t.lastId := CandidateRow(s.lastId, "a", "relates_to", "b", Pending, None, None, 1, "global")]
  {
    NotBlank(op.subject);
    NotBlank(op.predicate_);
    NotBlank(op.object_);
    var id := Mint(s.lastId, 0);
    var r := ProposeCandidate(1, id, s.lastId, "a", "relates_to", "b", "global");
    assert PlanOf(s, op) == Write(id, [r]);
    CommitOne(s.(lastId := id), r);
  }

  lemma UnnamedIsPlanned(s: Live, op: Op)
    requires op.Promote? && op.ts > 0 && op.candidateId in s.db.episodic.candidates
    requires var c := s.db.episodic.candidates[op.candidateId];
             && c.status == Pending && c.promotedClaimId == None && c.predicate_ == "relates_to"
             && c.eventId in s.db.episodic.events
    requires Grounded(s.db.core) && s.db.core.entities == map[] && op.attribution == Some((Inferred, 0.45))
    requires op.decision == Some(Decision("", "promote"))
    ensures PlanOf(s, op).Write? && Resurrects(s, op)
  {
    assert PlanOf(s, op) == PlanPromotion(s, op);
    assert Blank("") && !DecisionFits(op.decision, "promote");
  }
}
