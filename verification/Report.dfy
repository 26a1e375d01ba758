/** consolidate_report and its passes, claim by claim, in terms of the rows that are there before
    (crates/aver-core/src/claims.rs). */
module Report {
  import opened Prelude
  import opened Records
  import opened PredicateFilter
  import opened Projection
  import opened Consolidation

  ghost predicate SaysTheSame(a: ClaimRow, b: ClaimRow) {
    a.subject == b.subject && a.predicate_ == b.predicate_ && a.object_ == b.object_
  }

  /** No claim with a lower id says the same. */
  ghost predicate FirstToSay(claims: Claims, id: int) {
    id in claims && forall j :: j in claims && j < id ==> !SaysTheSame(claims[j], claims[id])
  }

  /** Another claim says the same. */
  ghost predicate SaidAgain(claims: Claims, id: int) {
    id in claims && exists j :: j in claims && j != id && SaysTheSame(claims[j], claims[id])
  }

  ghost predicate Contradicted(contradictions: map<int, ContradictionRow>, id: int) {
    exists c :: c in contradictions && contradictions[c].claimId == id
  }

  /** A type with the single flag bears the name, or an alias of one does. */
  ghost predicate OneValueOnly(v: Vocabulary, name: string) {
    || (exists i :: 0 <= i < |v.rows| && v.rows[i].name == name && v.rows[i].single)
    || (name in v.aliases && v.aliases[name] < |v.rows| && v.rows[v.aliases[name]].single)
  }

  /** A later claim gives the same subject another value. */
  ghost predicate Outdated(claims: Claims, id: int) {
    id in claims && exists j :: j in claims && id < j && claims[j].subject == claims[id].subject
                                && claims[j].predicate_ == claims[id].predicate_
                                && claims[j].object_ != claims[id].object_
  }

  /** The references of all claims that say the same, each once. */
  ghost predicate GroupRefs(claims: Claims, id: int, refs: seq<string>)
    requires id in claims
  {
    && (forall i, j :: 0 <= i < j < |refs| ==> refs[i] != refs[j])
    && forall x :: x in refs <==>
         exists j :: j in claims && SaysTheSame(claims[j], claims[id]) && x in claims[j].sourceRefs
  }

  /** `d` is 0.10 below `c`, rounded to whole hundredths, and not below 0. */
  ghost predicate OneStepLower(c: real, d: real) {
    var x := (c - 0.10) * 100.0;
    if x < 0.5 then d == 0.0 else Hundredths(d) as real == d * 100.0 && d * 100.0 - 0.5 <= x < d * 100.0 + 0.5
  }

  function Hundredths(d: real): int { (d * 100.0).Floor }

  lemma DecayedIsOneStep(c: real)
    requires 0.0 <= c <= 1.0
    ensures OneStepLower(c, Decayed(c))
    ensures forall d, e :: OneStepLower(c, d) && OneStepLower(c, e) ==> d == e
  {
    var x := (c - 0.10) * 100.0;
    RoundIsNearest(x);
    var n := Round(x);
    if x >= 0.5 {
      assert n >= 1 && Decayed(c) == n as real / 100.0;
      assert Decayed(c) * 100.0 == n as real;
    }
    forall d, e | OneStepLower(c, d) && OneStepLower(c, e) ensures d == e { OneNearest(x, d, e); }
  }

  lemma RoundIsNearest(x: real)
    requires -10.0 <= x
    ensures x >= 0.5 ==> Round(x) >= 1 && Round(x) as real - 0.5 <= x < Round(x) as real + 0.5
    ensures x < 0.5 ==> Round(x) <= 0
  {
  }

  lemma OneNearest(x: real, d: real, e: real)
    requires if x < 0.5 then d == 0.0 && e == 0.0
             else Hundredths(d) as real == d * 100.0 && d * 100.0 - 0.5 <= x < d * 100.0 + 0.5
                  && Hundredths(e) as real == e * 100.0 && e * 100.0 - 0.5 <= x < e * 100.0 + 0.5
    ensures d == e
  {
    if x >= 0.5 { assert Hundredths(d) == Hundredths(e); }
  }

  /** What merging leaves of a claim: the first to say what others say too collects their references, and an
      INFERRED one with two references or more is EXTRACTED at 0.75 at least. */
  ghost predicate MergedInto(claims: Claims, id: int, row: ClaimRow)
    requires id in claims
  {
    var was := claims[id];
    if !(FirstToSay(claims, id) && SaidAgain(claims, id)) then row == was
    else
      && GroupRefs(claims, id, row.sourceRefs)
      && (if was.provenance == Inferred && |row.sourceRefs| >= 2
          then row.provenance == Extracted && row.confidence == (if was.confidence > 0.75 then was.confidence else 0.75)
          else row.provenance == was.provenance && row.confidence == was.confidence)
      && row.(sourceRefs := was.sourceRefs, provenance := was.provenance, confidence := was.confidence) == was
  }

  lemma MergePassSays(claims: Claims, id: int)
    requires id in claims
    ensures id in MergePass(claims) && MergedInto(claims, id, MergePass(claims)[id])
    ensures id in Survivors(claims) <==> FirstToSay(claims, id) && SaidAgain(claims, id)
  {
    SurvivorSays(claims, id);
    if id in Survivors(claims) {
      assert MergePass(claims)[id] == MergedRow(claims, id);
      MergedRefsSay(claims, id);
    }
  }

  lemma SurvivorSays(claims: Claims, id: int)
    requires id in claims
    ensures id in Survivors(claims) <==> FirstToSay(claims, id) && SaidAgain(claims, id)
    ensures IsLowest(claims, id) <==> FirstToSay(claims, id)
  {
    assert forall j :: j in claims ==> (SameTriple(claims[j], claims[id]) <==> SaysTheSame(claims[j], claims[id]));
    if j :| j in claims && j != id && SaysTheSame(claims[j], claims[id]) { assert SameTriple(claims[j], claims[id]); }
  }

  lemma MergedRefsSay(claims: Claims, id: int)
    requires id in claims
    ensures GroupRefs(claims, id, MergedRefs(claims, id))
  {
    var ids := GroupListing(claims, id);
    forall x
      ensures x in MergedRefs(claims, id) <==>
                exists j :: j in claims && SaysTheSame(claims[j], claims[id]) && x in claims[j].sourceRefs
    {
      if x in MergedRefs(claims, id) {
        var k :| 0 <= k < |ids| && x in claims[ids[k]].sourceRefs;
        assert ids[k] in Group(claims, id) && SaysTheSame(claims[ids[k]], claims[id]);
      }
      if j :| j in claims && SaysTheSame(claims[j], claims[id]) && x in claims[j].sourceRefs {
        assert j in Group(claims, id);
        MergedRefsHoldTheGroup(claims, id, j);
      }
    }
  }

  /** ACTIVE claims stay so exactly as the first to say what they say, unless a later claim gives another value of
      a single-valued predicate. */
  ghost predicate StaysActive(v: Vocabulary, claims: Claims, id: int) {
    FirstToSay(claims, id) && !(OneValueOnly(v, claims[id].predicate_) && Outdated(claims, id))
  }

  lemma SurvivesSays(v: Vocabulary, claims: Claims, id: int)
    requires id in claims
    ensures Survives(v, claims, id) <==> StaysActive(v, claims, id)
  {
    SurvivorSays(claims, id);
    assert SingleValued(v, claims[id].predicate_) <==> OneValueOnly(v, claims[id].predicate_);
  }

  /** A claim after the whole call. */
  ghost predicate Reported(core: ClaimTables, id: int, row: ClaimRow)
    requires id in core.claims
  {
    exists merged ::
      && MergedInto(core.claims, id, merged)
      && (if core.claims[id].status == Active && Contradicted(core.contradictions, id)
          then OneStepLower(merged.confidence, row.confidence) else row.confidence == merged.confidence)
      && row.status == (if core.claims[id].status == Active && !StaysActive(core.vocabulary, core.claims, id)
                        then Superseded else core.claims[id].status)
      && row.(confidence := merged.confidence, status := merged.status) == merged
  }

  lemma ContradictedSays(contradictions: map<int, ContradictionRow>, id: int)
    ensures id in ContradictedIds(contradictions) <==> Contradicted(contradictions, id)
  {
  }

  /** Every claim ends as reported, also one that a contradiction names as the replacement only. */
  lemma ConsolidatedIsReported(core: ClaimTables, id: int)
    requires id in core.claims && ConfidencesWithin(core.claims)
    ensures var c := Consolidated(core.vocabulary, ContradictedIds(core.contradictions), core.claims);
            c.Keys == core.claims.Keys && Reported(core, id, c[id])
  {
    var v, claims, contradicted := core.vocabulary, core.claims, ContradictedIds(core.contradictions);
    var merged := MergePass(claims);
    PassesKeep(v, contradicted, claims);
    MergePassSays(claims, id);
    ContradictedSays(core.contradictions, id);
    DecayedIsOneStep(merged[id].confidence);
    StatusAfter(v, contradicted, claims, id);
    SurvivesSays(v, claims, id);
    LaterPasses(v, contradicted, merged, id);
  }

  /** After merging only confidence and status move. */
  lemma LaterPasses(v: Vocabulary, contradicted: set<int>, merged: Claims, id: int)
    requires id in merged
    ensures var c := ConflictPass(v, DuplicatePass(DecayPass(merged, contradicted)));
            && id in c && c[id].(confidence := merged[id].confidence, status := merged[id].status) == merged[id]
            && c[id].confidence == (if merged[id].status == Active && id in contradicted
                                    then Decayed(merged[id].confidence) else merged[id].confidence)
  {
    var decayed := DecayPass(merged, contradicted);
    var single := DuplicatePass(decayed);
    assert decayed[id].(confidence := merged[id].confidence) == merged[id];
    assert single[id].(status := decayed[id].status) == decayed[id];
  }

  ghost function ActiveContradicted(claims: Claims, contradictions: map<int, ContradictionRow>): set<int> {
    set id | id in claims && claims[id].status == Active && Contradicted(contradictions, id)
  }

  /** The claims the decay pass lowers, and how many it says it lowered. */
  lemma DecayTargetsSay(claims: Claims, contradictions: map<int, ContradictionRow>)
    ensures DecayTargets(claims, ContradictedIds(contradictions))
         == ActiveContradicted(claims, contradictions)
    ensures DecayTargets(MergePass(claims), ContradictedIds(contradictions))
         == DecayTargets(claims, ContradictedIds(contradictions))
  {
    forall id ensures id in ContradictedIds(contradictions) <==> Contradicted(contradictions, id) {
      ContradictedSays(contradictions, id);
    }
    MergeKeeps(claims, Survivors(claims));
  }

  /** The ACTIVE claims that a contradiction is about are one step lower, the others as they were. */
  ghost predicate Lowered(before: Claims, contradictions: map<int, ContradictionRow>, after: Claims) {
    && after.Keys == before.Keys
    && forall id :: id in before ==>
         && after[id].(confidence := before[id].confidence) == before[id]
         && if before[id].status == Active && Contradicted(contradictions, id)
            then OneStepLower(before[id].confidence, after[id].confidence)
            else after[id].confidence == before[id].confidence
  }

  lemma DecayPassLowers(claims: Claims, contradictions: map<int, ContradictionRow>)
    requires ConfidencesWithin(claims)
    ensures Lowered(claims, contradictions, DecayPass(claims, ContradictedIds(contradictions)))
  {
    forall id | id in claims ensures OneStepLower(claims[id].confidence, Decayed(claims[id].confidence)) {
      DecayedIsOneStep(claims[id].confidence);
    }
    DecayTargetsSay(claims, contradictions);
  }

  lemma SurvivorsSay(claims: Claims)
    ensures Survivors(claims) == set id | id in claims && FirstToSay(claims, id) && SaidAgain(claims, id)
  {
    forall id | id in claims ensures id in Survivors(claims) <==> FirstToSay(claims, id) && SaidAgain(claims, id) {
      SurvivorSays(claims, id);
    }
  }

  /** Claim 2 replaces claim 1: claim 1 falls from 0.8 to 0.7, claim 2 stays. */
  lemma ReplacementIsSpared(core: ClaimTables, id: int, replacement: int, c: int)
    requires id in core.claims && replacement in core.claims && c in core.contradictions
    requires core.contradictions[c].claimId == id && core.contradictions[c].newClaimId == Some(replacement)
    requires core.claims[id].status == Active && core.claims[id].confidence == 0.8 && ConfidencesWithin(core.claims)
    requires !SaidAgain(core.claims, id) && !SaidAgain(core.claims, replacement)
    requires !Contradicted(core.contradictions, replacement)
    ensures var after := Consolidated(core.vocabulary, ContradictedIds(core.contradictions), core.claims);
            id in after && replacement in after && after[id].confidence == 0.7
            && after[replacement].confidence == core.claims[replacement].confidence
  {
    ConsolidatedIsReported(core, id);
    ConsolidatedIsReported(core, replacement);
    var after := Consolidated(core.vocabulary, ContradictedIds(core.contradictions), core.claims);
    DecayedIsOneStep(0.8);
    assert (0.8 - 0.10) * 100.0 == 70.0;
    assert OneStepLower(0.8, after[id].confidence);
    assert 0.7 * 100.0 == 70.0 && Hundredths(0.7) == 70;
    assert OneStepLower(0.8, 0.7);
  }
}
