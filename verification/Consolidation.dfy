/** The consolidation passes of crates/aver-core/src/claims.rs as functions of the claims
    table, and the normal form they reach. */
module Consolidation {
  import opened Prelude
  import opened Records
  import opened PredicateFilter
  import opened Projection

  type Claims = map<int, ClaimRow>

  predicate SameTriple(a: ClaimRow, b: ClaimRow) {
    a.subject == b.subject && a.predicate_ == b.predicate_ && a.object_ == b.object_
  }

  function Group(claims: Claims, id: int): set<int>
    requires id in claims
  {
    set j | j in claims && SameTriple(claims[j], claims[id])
  }

  /** The lowest id of its triple, whatever the claims' status. */
  predicate IsLowest(claims: Claims, id: int)
    requires id in claims
  {
    forall j | j in claims && SameTriple(claims[j], claims[id]) :: id <= j
  }

  /** GROUP BY subject, predicate, object HAVING COUNT(*) > 1, by lowest id. */
  function Survivors(claims: Claims): set<int> {
    set id | id in claims && IsLowest(claims, id)
             && exists j | j in claims && j != id :: SameTriple(claims[j], claims[id])
  }

  predicate AllIn(ids: seq<int>, claims: Claims) {
    forall k | 0 <= k < |ids| :: ids[k] in claims
  }

  // ----- pass 1: merge the source refs of duplicate groups -----

  /** Appends the references not yet present, keeping order. */
  function Union(acc: seq<string>, refs: seq<string>): (r: seq<string>)
    ensures NoRepeats(acc) ==> NoRepeats(r)
    ensures forall x :: x in r <==> x in acc || x in refs
    ensures (forall x :: x in refs ==> x in acc) ==> r == acc
    decreases |refs|
  {
    if refs == [] then acc
    else Union(if refs[0] in acc then acc else acc + [refs[0]], refs[1..])
  }

  function UnionAll(claims: Claims, acc: seq<string>, ids: seq<int>): (r: seq<string>)
    requires AllIn(ids, claims)
    ensures NoRepeats(acc) ==> NoRepeats(r)
    ensures forall x :: x in r <==> x in acc || exists k :: 0 <= k < |ids| && x in claims[ids[k]].sourceRefs
    decreases |ids|
  {
    if ids == [] then acc
    else
      assert forall k :: 0 < k < |ids| ==> ids[k] == ids[1..][k - 1];
      UnionAll(claims, Union(acc, claims[ids[0]].sourceRefs), ids[1..])
  }

  function GroupListing(claims: Claims, id: int): (ids: seq<int>)
    requires id in claims
    ensures AllIn(ids, claims)
    ensures forall k :: 0 <= k < |ids| ==> ids[k] in Group(claims, id)
    ensures forall j :: j in Group(claims, id) ==> exists k :: 0 <= k < |ids| && ids[k] == j
    ensures StrictlySorted(IntLe, ids)
  {
    var ids := SortSet(IntLe, Group(claims, id));
    assert forall k :: 0 <= k < |ids| ==> ids[k] in ids;
    ids
  }

  /** The group's references in id order, each once. */
  function MergedRefs(claims: Claims, id: int): (r: seq<string>)
    requires id in claims
    ensures NoRepeats(r)
  {
    UnionAll(claims, [], GroupListing(claims, id))
  }

  lemma MergedRefsHoldTheGroup(claims: Claims, id: int, member: int)
    requires id in claims && member in Group(claims, id)
    ensures forall x :: x in claims[member].sourceRefs ==> x in MergedRefs(claims, id)
  {
    var k :| 0 <= k < |GroupListing(claims, id)| && GroupListing(claims, id)[k] == member;
  }

  predicate Promotes(claims: Claims, id: int)
    requires id in claims
  {
    claims[id].provenance == Inferred && |MergedRefs(claims, id)| >= 2
  }

  function MergeRecord(ts: int, claims: Claims, id: int): (r: LogRecord)
    requires id in claims
    ensures r.MergeSourceRefs? && r.claimId == id
  {
    MergeSourceRefs(ts, id, MergedRefs(claims, id), Promotes(claims, id))
  }

  function MergedRow(claims: Claims, id: int): ClaimRow
    requires id in claims
  {
    var row := claims[id];
    if Promotes(claims, id) then
      row.(sourceRefs := MergedRefs(claims, id), provenance := Extracted, confidence := Max(row.confidence, 0.75))
    else row.(sourceRefs := MergedRefs(claims, id))
  }

  /** The table once the groups of `chosen` are merged. */
  function Merged(claims: Claims, chosen: set<int>): Claims {
    map id | id in claims :: if id in chosen then MergedRow(claims, id) else claims[id]
  }

  lemma {:induction false} SameRefsSameUnion(a: Claims, b: Claims, acc: seq<string>, ids: seq<int>)
    requires AllIn(ids, a) && AllIn(ids, b)
    requires forall k :: 0 <= k < |ids| ==> a[ids[k]].sourceRefs == b[ids[k]].sourceRefs
    ensures UnionAll(a, acc, ids) == UnionAll(b, acc, ids)
    decreases |ids|
  {
    if ids != [] {
      assert forall k :: 0 < k < |ids| ==> ids[k] == ids[1..][k - 1];
      SameRefsSameUnion(a, b, Union(acc, a[ids[0]].sourceRefs), ids[1..]);
    }
  }

  lemma SurvivorIsUnique(claims: Claims, i: int, j: int)
    requires i in Survivors(claims) && j in Survivors(claims) && SameTriple(claims[j], claims[i])
    ensures i == j
  {
    assert SameTriple(claims[i], claims[j]);
  }

  /** Merging other groups leaves a group's record as it was. */
  lemma GroupsAreIndependent(claims: Claims, chosen: set<int>, id: int, ts: int)
    requires chosen <= Survivors(claims) && id in Survivors(claims) && id !in chosen
    ensures MergeRecord(ts, Merged(claims, chosen), id) == MergeRecord(ts, claims, id)
  {
    var now := Merged(claims, chosen);
    assert forall j :: j in claims ==> SameTriple(now[j], claims[j]);
    assert Group(now, id) == Group(claims, id);
    var ids := GroupListing(claims, id);
    forall k | 0 <= k < |ids| ensures now[ids[k]] == claims[ids[k]] {
      assert ids[k] in Group(claims, id);
      if ids[k] in Survivors(claims) { SurvivorIsUnique(claims, id, ids[k]); }
    }
    SameRefsSameUnion(claims, now, [], ids);
  }

  lemma MergeStep(claims: Claims, chosen: set<int>, id: int, ts: int)
    requires chosen <= Survivors(claims) && id in Survivors(claims) && id !in chosen
    ensures ApplyMerge(Merged(claims, chosen), MergeRecord(ts, claims, id))
         == Outcome(Merged(claims, chosen + {id}), Ok(Applied))
  {
    var now := Merged(claims, chosen);
    assert now[id] == claims[id];
    var o := ApplyMerge(now, MergeRecord(ts, claims, id));
    assert o == Outcome(now[id := MergedRow(claims, id)], Ok(Applied));
    MergedGrows(claims, chosen, id);
  }

  lemma MergedGrows(claims: Claims, chosen: set<int>, id: int)
    requires id in claims
    ensures Merged(claims, chosen)[id := MergedRow(claims, id)] == Merged(claims, chosen + {id})
  {
  }

  // ----- pass 2: decay contradicted claims -----

  function ContradictedIds(contradictions: map<int, ContradictionRow>): set<int> {
    set c | c in contradictions :: contradictions[c].claimId
  }

  function DecayTargets(claims: Claims, contradicted: set<int>): set<int> {
    set id | id in claims && claims[id].status == Active && id in contradicted
  }

  /** f64::round: to the nearest integer, halves away from zero. */
  function Round(x: real): int {
    if x >= 0.0 then (x + 0.5).Floor else -((-x + 0.5).Floor)
  }

  function Decayed(c: real): (d: real)
    ensures 0.0 <= c <= 1.0 ==> 0.0 <= d <= c
    ensures d == 0.0 || d <= c - 0.095
  {
    Max(Round((c - 0.10) * 100.0) as real / 100.0, 0.0)
  }

  /** The table once the claims of `ids` have decayed. */
  function WithDecay(claims: Claims, ids: set<int>): Claims {
    map id | id in claims :: if id in ids then claims[id].(confidence := Decayed(claims[id].confidence)) else claims[id]
  }

  function DecayChanges(claims: Claims, ids: seq<int>): (changes: seq<ConfidenceChange>)
    requires AllIn(ids, claims)
    ensures |changes| == |ids|
    ensures forall k :: 0 <= k < |ids| ==>
              changes[k].claimId == ids[k] && changes[k].confidence == Decayed(claims[ids[k]].confidence)
  {
    seq(|ids|, k requires 0 <= k < |ids| && ids[k] in claims =>
                 ConfidenceChange(ids[k], Decayed(claims[ids[k]].confidence)))
  }

  predicate ConfidencesWithin(claims: Claims) {
    forall id | id in claims :: Within(claims[id].confidence)
  }

  lemma {:induction false} DecayIsPointwise(claims: Claims, start: Claims, ids: seq<int>)
    requires claims.Keys == start.Keys && AllIn(ids, claims) && Distinct(ids) && ConfidencesWithin(start)
    requires forall k :: 0 <= k < |ids| ==> claims[ids[k]] == start[ids[k]]
    ensures ApplyDecay(claims, DecayChanges(start, ids)).result == Ok(Applied)
    ensures ApplyDecay(claims, DecayChanges(start, ids)).state
         == map id | id in claims :: if id in ids then start[id].(confidence := Decayed(start[id].confidence))
           else claims[id]
    decreases |ids|
  {
    var changes := DecayChanges(start, ids);
    if ids != [] {
      var next := claims[ids[0] := claims[ids[0]].(confidence := changes[0].confidence)];
      assert forall k :: 0 < k < |ids| ==> ids[k] == ids[1..][k - 1];
      assert changes[1..] == DecayChanges(start, ids[1..]);
      DecayIsPointwise(next, start, ids[1..]);
      assert forall id :: id in ids <==> id == ids[0] || id in ids[1..];
    }
  }

  /** A decay record that lists the targets once each decays exactly them. */
  lemma DecayRecordDecays(claims: Claims, ids: seq<int>, targets: set<int>)
    requires AllIn(ids, claims) && Distinct(ids) && ConfidencesWithin(claims)
    requires forall id :: id in targets <==> id in ids
    ensures ApplyDecay(claims, DecayChanges(claims, ids)) == Outcome(WithDecay(claims, targets), Ok(Applied))
  {
    DecayIsPointwise(claims, claims, ids);
    var after := ApplyDecay(claims, DecayChanges(claims, ids)).state;
    assert after.Keys == claims.Keys;
    forall id | id in after ensures after[id] == WithDecay(claims, targets)[id] {
    }
    assert after == WithDecay(claims, targets);
  }

  // ----- pass 3: supersede duplicates and replaced values -----

  function DuplicateIds(claims: Claims): set<int> {
    set id | id in claims && claims[id].status == Active && !IsLowest(claims, id)
  }

  /** A type marked single, or an alias of one. */
  predicate SingleValued(v: Vocabulary, name: string) {
    || (exists i | 0 <= i < |v.rows| :: v.rows[i].name == name && v.rows[i].single)
    || (name in v.aliases && v.aliases[name] < |v.rows| && v.rows[v.aliases[name]].single)
  }

  /** A later claim, of any status, gives the same subject and predicate another object. */
  predicate Replaced(claims: Claims, id: int)
    requires id in claims
  {
    exists j | j in claims :: j > id && claims[j].subject == claims[id].subject
      && claims[j].predicate_ == claims[id].predicate_ && claims[j].object_ != claims[id].object_
  }

  function ConflictIds(v: Vocabulary, claims: Claims): set<int> {
    set id | id in claims && claims[id].status == Active
             && SingleValued(v, claims[id].predicate_) && Replaced(claims, id)
  }

  /** The table once the claims of `ids` are superseded. */
  function WithSuperseded(claims: Claims, ids: set<int>): Claims {
    map id | id in claims :: if id in ids then claims[id].(status := Superseded) else claims[id]
  }

  lemma {:induction false} SupersedeIsPointwise(claims: Claims, ids: seq<int>)
    requires AllIn(ids, claims)
    ensures ApplySupersede(claims, ids) == Outcome(WithSuperseded(claims, set id | id in ids), Ok(Applied))
    decreases |ids|
  {
    if ids == [] {
      assert WithSuperseded(claims, set id | id in ids) == claims;
    } else {
      var next := claims[ids[0] := claims[ids[0]].(status := Superseded)];
      assert claims[ids[0]].status == Superseded ==> next == claims;
      assert forall k :: 0 < k < |ids| ==> ids[k] == ids[1..][k - 1];
      SupersedeIsPointwise(next, ids[1..]);
      assert forall id :: id in ids <==> id == ids[0] || id in ids[1..];
      assert WithSuperseded(next, set id | id in ids[1..]) == WithSuperseded(claims, set id | id in ids);
    }
  }

  // ----- the passes together -----

  function MergePass(claims: Claims): Claims { Merged(claims, Survivors(claims)) }

  function DecayPass(claims: Claims, contradicted: set<int>): Claims {
    WithDecay(claims, DecayTargets(claims, contradicted))
  }

  function DuplicatePass(claims: Claims): Claims { WithSuperseded(claims, DuplicateIds(claims)) }

  function ConflictPass(v: Vocabulary, claims: Claims): Claims { WithSuperseded(claims, ConflictIds(v, claims)) }

  /** The claims table after consolidate_report. */
  function Consolidated(v: Vocabulary, contradicted: set<int>, claims: Claims): Claims {
    ConflictPass(v, DuplicatePass(DecayPass(MergePass(claims), contradicted)))
  }

  /** The superseded count consolidate_report returns. */
  function SupersededCount(v: Vocabulary, contradicted: set<int>, claims: Claims): nat {
    var decayed := DecayPass(MergePass(claims), contradicted);
    |DuplicateIds(decayed)| + |ConflictIds(v, DuplicatePass(decayed))|
  }

  function ActiveIds(claims: Claims): set<int> {
    set id | id in claims && claims[id].status == Active
  }

  /** Same ids, saying the same. */
  ghost predicate SameTriples(a: Claims, b: Claims) {
    a.Keys == b.Keys && forall id :: id in a ==> SameTriple(a[id], b[id])
  }

  ghost predicate SameStatus(a: Claims, b: Claims) {
    a.Keys == b.Keys && forall id :: id in a ==> a[id].status == b[id].status
  }

  ghost predicate SameEvidence(a: Claims, b: Claims) {
    a.Keys == b.Keys
    && forall id :: id in a ==> a[id].sourceRefs == b[id].sourceRefs && a[id].provenance == b[id].provenance
  }

  lemma TriplesDecideGroups(a: Claims, b: Claims)
    requires SameTriples(a, b)
    ensures forall id :: id in a ==> (IsLowest(a, id) <==> IsLowest(b, id))
    ensures forall id :: id in a ==> (Replaced(a, id) <==> Replaced(b, id))
    ensures Survivors(a) == Survivors(b)
  {
  }

  lemma MergeKeeps(claims: Claims, chosen: set<int>)
    ensures SameTriples(claims, Merged(claims, chosen)) && SameStatus(claims, Merged(claims, chosen))
  {
  }

  lemma DecayKeeps(claims: Claims, ids: set<int>)
    ensures SameTriples(claims, WithDecay(claims, ids)) && SameStatus(claims, WithDecay(claims, ids))
    ensures SameEvidence(claims, WithDecay(claims, ids))
  {
  }

  lemma SupersedeKeeps(claims: Claims, ids: set<int>)
    ensures SameTriples(claims, WithSuperseded(claims, ids)) && SameEvidence(claims, WithSuperseded(claims, ids))
  {
  }

  /** What each pass leaves alone. */
  lemma PassesKeep(v: Vocabulary, contradicted: set<int>, claims: Claims)
    ensures SameTriples(claims, MergePass(claims)) && SameStatus(claims, MergePass(claims))
    ensures var decayed := DecayPass(MergePass(claims), contradicted);
            && SameTriples(claims, decayed) && SameStatus(claims, decayed) && SameEvidence(MergePass(claims), decayed)
            && SameTriples(claims, DuplicatePass(decayed))
            && SameTriples(claims, Consolidated(v, contradicted, claims))
            && SameEvidence(MergePass(claims), Consolidated(v, contradicted, claims))
  {
    var merged := MergePass(claims);
    MergeKeeps(claims, Survivors(claims));
    var decayed := DecayPass(merged, contradicted);
    DecayKeeps(merged, DecayTargets(merged, contradicted));
    KeepsCompose(claims, merged, decayed);
    var single := DuplicatePass(decayed);
    SupersedeKeeps(decayed, DuplicateIds(decayed));
    KeepsCompose(claims, decayed, single);
    KeepsCompose(merged, decayed, single);
    SupersedeKeeps(single, ConflictIds(v, single));
    KeepsCompose(claims, single, ConflictPass(v, single));
    KeepsCompose(merged, single, ConflictPass(v, single));
  }

  lemma KeepsCompose(a: Claims, b: Claims, c: Claims)
    ensures SameTriples(a, b) && SameTriples(b, c) ==> SameTriples(a, c)
    ensures SameStatus(a, b) && SameStatus(b, c) ==> SameStatus(a, c)
    ensures SameEvidence(a, b) && SameEvidence(b, c) ==> SameEvidence(a, c)
  {
  }

  /** ACTIVE claims the supersede passes leave ACTIVE. */
  predicate Survives(v: Vocabulary, claims: Claims, id: int)
    requires id in claims
  {
    IsLowest(claims, id) && !(SingleValued(v, claims[id].predicate_) && Replaced(claims, id))
  }

  lemma StatusAfter(v: Vocabulary, contradicted: set<int>, claims: Claims, id: int)
    requires id in claims
    ensures id in Consolidated(v, contradicted, claims)
    ensures Consolidated(v, contradicted, claims)[id].status
         == if claims[id].status == Active && !Survives(v, claims, id) then Superseded else claims[id].status
  {
    var decayed := DecayPass(MergePass(claims), contradicted);
    var single := DuplicatePass(decayed);
    PassesKeep(v, contradicted, claims);
    TriplesDecideGroups(claims, decayed);
    TriplesDecideGroups(claims, single);
    assert id in DuplicateIds(decayed) <==> decayed[id].status == Active && !IsLowest(decayed, id);
  }

  /** After consolidation every ACTIVE claim has the lowest id of its triple, and no two
      ACTIVE claims share a subject and a single-valued predicate. */
  lemma ConsolidationNormalForm(v: Vocabulary, contradicted: set<int>, claims: Claims)
    ensures var c := Consolidated(v, contradicted, claims);
            && (forall id :: id in c && c[id].status == Active ==> IsLowest(c, id))
            && (forall i, j :: (i in c && j in c && c[i].status == Active && c[j].status == Active
                  && c[i].subject == c[j].subject && c[i].predicate_ == c[j].predicate_
                  && SingleValued(v, c[i].predicate_)) ==> i == j)
  {
    var c := Consolidated(v, contradicted, claims);
    PassesKeep(v, contradicted, claims);
    TriplesDecideGroups(claims, c);
    forall id | id in c && c[id].status == Active
      ensures IsLowest(c, id) && !(SingleValued(v, c[id].predicate_) && Replaced(c, id))
    {
      StatusAfter(v, contradicted, claims, id);
    }
    forall i, j | i in c && j in c && c[i].status == Active && c[j].status == Active
      && c[i].subject == c[j].subject && c[i].predicate_ == c[j].predicate_ && SingleValued(v, c[i].predicate_)
      ensures i == j
    {
      if c[i].object_ == c[j].object_ {
        assert SameTriple(c[i], c[j]) && SameTriple(c[j], c[i]);
      }
    }
  }

  ghost predicate InSlot(claims: Claims, id: int, subject: string, predicate_: string) {
    id in claims && claims[id].subject == subject && claims[id].predicate_ == predicate_
  }

  /** A slot of a single-valued predicate keeps an ACTIVE claim exactly when the first claim of its newest
      value is ACTIVE and newer than every claim of another value, whatever the others' status. */
  lemma SlotKeepsItsNewestValue(v: Vocabulary, contradicted: set<int>, claims: Claims,
                                subject: string, predicate_: string, newest: int, first: int)
    requires SingleValued(v, predicate_) && InSlot(claims, newest, subject, predicate_)
    requires forall id :: InSlot(claims, id, subject, predicate_) ==> id <= newest
    requires first in claims && SameTriple(claims[first], claims[newest]) && IsLowest(claims, first)
    ensures var c := Consolidated(v, contradicted, claims);
            (exists id :: InSlot(c, id, subject, predicate_) && c[id].status == Active) <==>
              claims[first].status == Active
              && forall id :: InSlot(claims, id, subject, predicate_)
                              && claims[id].object_ != claims[newest].object_ ==>
                   id < first
  {
    var c := Consolidated(v, contradicted, claims);
    PassesKeep(v, contradicted, claims);
    if id :| InSlot(c, id, subject, predicate_) && c[id].status == Active {
      StatusAfter(v, contradicted, claims, id);
      SlotSurvivor(v, claims, subject, predicate_, newest, first, id);
    }
    if claims[first].status == Active
       && forall id :: InSlot(claims, id, subject, predicate_) && claims[id].object_ != claims[newest].object_ ==>
           id < first
    {
      StatusAfter(v, contradicted, claims, first);
      assert InSlot(c, first, subject, predicate_);
      assert forall j :: j in claims && claims[j].subject == subject && claims[j].predicate_ == predicate_ ==>
          InSlot(claims, j, subject, predicate_);
    }
  }

  lemma SlotSurvivor(v: Vocabulary, claims: Claims, subject: string, predicate_: string, newest: int, first: int,
                     id: int)
    requires SingleValued(v, predicate_) && InSlot(claims, newest, subject, predicate_)
    requires forall j :: InSlot(claims, j, subject, predicate_) ==> j <= newest
    requires first in claims && SameTriple(claims[first], claims[newest]) && IsLowest(claims, first)
    requires InSlot(claims, id, subject, predicate_) && Survives(v, claims, id)
    ensures id == first
    ensures forall j :: InSlot(claims, j, subject, predicate_) && claims[j].object_ != claims[newest].object_ ==>
              j < first
  {
    assert claims[id].object_ == claims[newest].object_;
    assert SameTriple(claims[id], claims[first]) && SameTriple(claims[first], claims[id]);
    forall j | InSlot(claims, j, subject, predicate_) && claims[j].object_ != claims[newest].object_ ensures j < first {
      assert j != first;
    }
  }

  /** Values A, B, A of a single-valued predicate leave no ACTIVE claim: the last A is a duplicate of the
      first, and the first is older than B. */
  lemma ReturningValueEmptiesSlot(v: Vocabulary, contradicted: set<int>, claims: Claims, a: int, b: int, again: int)
    requires a < b < again && claims.Keys == {a, b, again} && SingleValued(v, claims[a].predicate_)
    requires SameTriple(claims[a], claims[again]) && claims[b].object_ != claims[a].object_
    requires claims[b].subject == claims[a].subject && claims[b].predicate_ == claims[a].predicate_
    ensures ActiveIds(Consolidated(v, contradicted, claims)) == {}
  {
    NoneSurvive(v, claims, a, b, again);
    NoSurvivorNoActive(v, contradicted, claims);
  }

  lemma NoneSurvive(v: Vocabulary, claims: Claims, a: int, b: int, again: int)
    requires a < b < again && claims.Keys == {a, b, again} && SingleValued(v, claims[a].predicate_)
    requires SameTriple(claims[a], claims[again]) && claims[b].object_ != claims[a].object_
    requires claims[b].subject == claims[a].subject && claims[b].predicate_ == claims[a].predicate_
    ensures forall id :: id in claims ==> !Survives(v, claims, id)
  {
    assert SameTriple(claims[again], claims[a]);
    assert !IsLowest(claims, again);
    assert Replaced(claims, a) && Replaced(claims, b);
  }

  lemma NoSurvivorNoActive(v: Vocabulary, contradicted: set<int>, claims: Claims)
    requires forall id :: id in claims ==> !Survives(v, claims, id)
    ensures ActiveIds(Consolidated(v, contradicted, claims)) == {}
  {
    PassesKeep(v, contradicted, claims);
    forall id | id in claims ensures Consolidated(v, contradicted, claims)[id].status != Active {
      StatusAfter(v, contradicted, claims, id);
    }
  }

  /** The survivor of a duplicate group ends with every reference of the group, each once. */
  lemma SurvivorHoldsAllRefs(v: Vocabulary, contradicted: set<int>, claims: Claims, survivor: int, member: int)
    requires survivor in Survivors(claims) && member in Group(claims, survivor)
    ensures var c := Consolidated(v, contradicted, claims);
            && NoRepeats(c[survivor].sourceRefs)
            && forall x :: x in claims[member].sourceRefs ==> x in c[survivor].sourceRefs
  {
    PassesKeep(v, contradicted, claims);
    MergedRefsHoldTheGroup(claims, survivor, member);
    assert MergePass(claims)[survivor].sourceRefs == MergedRefs(claims, survivor);
  }

  /** The superseded count is exactly the drop in ACTIVE claims. */
  lemma SupersededCountIsExact(v: Vocabulary, contradicted: set<int>, claims: Claims)
    ensures SupersededCount(v, contradicted, claims)
         == |ActiveIds(claims)| - |ActiveIds(Consolidated(v, contradicted, claims))|
  {
    var decayed := DecayPass(MergePass(claims), contradicted);
    var single := DuplicatePass(decayed);
    PassesKeep(v, contradicted, claims);
    assert ActiveIds(decayed) == ActiveIds(claims);
    SupersedingCounts(decayed, DuplicateIds(decayed));
    SupersedingCounts(single, ConflictIds(v, single));
  }

  lemma SupersedingCounts(claims: Claims, ids: set<int>)
    requires ids <= ActiveIds(claims)
    ensures |ActiveIds(WithSuperseded(claims, ids))| == |ActiveIds(claims)| - |ids|
  {
    assert ActiveIds(WithSuperseded(claims, ids)) == ActiveIds(claims) - ids;
  }

  // ----- a second run -----

  lemma {:induction false} FullAccumulatorStays(claims: Claims, acc: seq<string>, ids: seq<int>)
    requires AllIn(ids, claims)
    requires forall k, x :: 0 <= k < |ids| && x in claims[ids[k]].sourceRefs ==> x in acc
    ensures UnionAll(claims, acc, ids) == acc
    decreases |ids|
  {
    if ids != [] {
      assert forall k :: 0 < k < |ids| ==> ids[k] == ids[1..][k - 1];
      FullAccumulatorStays(claims, acc, ids[1..]);
    }
  }

  lemma {:induction false} UnionOfDistinct(acc: seq<string>, refs: seq<string>)
    requires NoRepeats(acc + refs)
    ensures Union(acc, refs) == acc + refs
    decreases |refs|
  {
    if refs != [] {
      assert forall i :: 0 <= i < |acc| ==> (acc + refs)[i] == acc[i];
      assert (acc + refs)[|acc|] == refs[0];
      assert acc + [refs[0]] + refs[1..] == acc + refs;
      UnionOfDistinct(acc + [refs[0]], refs[1..]);
    } else {
      assert acc + refs == acc;
    }
  }

  /** Where the survivor already holds its group's references, merging changes nothing. */
  lemma MergedSurvivorIsFixed(claims: Claims, id: int)
    requires id in Survivors(claims) && NoRepeats(claims[id].sourceRefs)
    requires forall j, x :: j in Group(claims, id) && x in claims[j].sourceRefs ==> x in claims[id].sourceRefs
    ensures MergedRefs(claims, id) == claims[id].sourceRefs
  {
    var ids := GroupListing(claims, id);
    assert id in Group(claims, id);
    var k :| 0 <= k < |ids| && ids[k] == id;
    assert ids[0] in Group(claims, id);
    assert SameTriple(claims[ids[0]], claims[id]);
    assert ids[0] == id;
    assert [] + claims[id].sourceRefs == claims[id].sourceRefs;
    UnionOfDistinct([], claims[id].sourceRefs);
    assert forall k :: 0 < k < |ids| ==> ids[k] == ids[1..][k - 1];
    FullAccumulatorStays(claims, claims[id].sourceRefs, ids[1..]);
  }

  /** A table with the merged evidence and the same triples is fixed by merging again. */
  lemma MergeIsIdempotent(claims: Claims, once: Claims, id: int)
    requires SameTriples(claims, once) && SameEvidence(MergePass(claims), once)
    requires id in Survivors(once)
    ensures MergedRow(once, id) == once[id]
  {
    TriplesDecideGroups(claims, once);
    assert once[id].sourceRefs == MergedRefs(claims, id);
    assert once[id].provenance == MergedRow(claims, id).provenance;
    forall j, x | j in Group(once, id) && x in once[j].sourceRefs ensures x in once[id].sourceRefs {
      assert SameTriple(claims[j], claims[id]);
      if j in Survivors(claims) { SurvivorIsUnique(claims, id, j); }
      assert j != id ==> once[j].sourceRefs == claims[j].sourceRefs;
      MergedRefsHoldTheGroup(claims, id, j);
    }
    MergedSurvivorIsFixed(once, id);
  }

  lemma MergeIsIdle(claims: Claims, once: Claims)
    requires SameTriples(claims, once) && SameEvidence(MergePass(claims), once)
    ensures MergePass(once) == once
  {
    forall id | id in Survivors(once) ensures MergedRow(once, id) == once[id] {
      MergeIsIdempotent(claims, once, id);
    }
  }

  lemma RunFromNormalForm(v: Vocabulary, contradicted: set<int>, once: Claims)
    requires MergePass(once) == once
    requires forall id :: id in once && once[id].status == Active ==> Survives(v, once, id)
    ensures var twice := Consolidated(v, contradicted, once);
            SameStatus(once, twice) && SameEvidence(once, twice) && SupersededCount(v, contradicted, once) == 0
  {
    var twice := Consolidated(v, contradicted, once);
    PassesKeep(v, contradicted, once);
    forall id | id in once ensures once[id].status == twice[id].status {
      StatusAfter(v, contradicted, once, id);
    }
    assert ActiveIds(once) == ActiveIds(twice);
    SupersededCountIsExact(v, contradicted, once);
  }

  /** A second run changes no status, no source refs and no provenance, and supersedes nothing. */
  lemma SecondRunIsIdle(v: Vocabulary, contradicted: set<int>, claims: Claims)
    ensures var once := Consolidated(v, contradicted, claims);
            var twice := Consolidated(v, contradicted, once);
            && SameStatus(once, twice) && SameEvidence(once, twice)
            && SupersededCount(v, contradicted, once) == 0
  {
    var once := Consolidated(v, contradicted, claims);
    PassesKeep(v, contradicted, claims);
    TriplesDecideGroups(claims, once);
    MergeIsIdle(claims, once);
    forall id | id in once && once[id].status == Active ensures Survives(v, once, id) {
      StatusAfter(v, contradicted, claims, id);
    }
    RunFromNormalForm(v, contradicted, once);
  }

  // ----- repeated decay -----

  function DecayedTimes(c: real, n: nat): real {
    if n == 0 then c else Decayed(DecayedTimes(c, n - 1))
  }

  /** A confidence stays in range and falls by at least 0.095 a pass until it is 0. */
  lemma {:induction false} DecayFalls(c: real, n: nat)
    requires 0.0 <= c <= 1.0
    ensures 0.0 <= DecayedTimes(c, n) <= 1.0
    ensures DecayedTimes(c, n) == 0.0 || DecayedTimes(c, n) <= c - 0.095 * n as real
  {
    if n > 0 {
      DecayFalls(c, n - 1);
    }
  }

  lemma DecayOfHundredths(h: nat)
    ensures Decayed(h as real / 100.0) == (if h >= 10 then h - 10 else 0) as real / 100.0
  {
    var x := (h as real / 100.0 - 0.10) * 100.0;
    assert x == (h - 10 as int) as real;
    assert Round(x) == h - 10;
  }

  /** After one pass a confidence is a whole number of hundredths, so each later pass
      takes exactly 0.10. */
  lemma {:induction false} WholeHundredths(c: real, n: nat) returns (h: nat)
    requires 0.0 <= c <= 1.0 && n >= 1
    ensures DecayedTimes(c, n) == h as real / 100.0 && (h == 0 || h <= 100 - 10 * n)
  {
    if n == 1 {
      var r := Round((c - 0.10) * 100.0);
      h := if r >= 0 then r else 0;
      assert DecayedTimes(c, 0) == c;
    } else {
      var before := WholeHundredths(c, n - 1);
      DecayOfHundredths(before);
      h := if before >= 10 then before - 10 else 0;
    }
  }

  /** Ten decay passes bring any confidence to 0, and it stays there. */
  lemma {:induction false} TenPassesReachZero(c: real, n: nat)
    requires 0.0 <= c <= 1.0 && n >= 10
    ensures DecayedTimes(c, n) == 0.0
  {
    var _ := WholeHundredths(c, n);
  }
}
