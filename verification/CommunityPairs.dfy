/** What detect_communities (crates/aver-core/src/graph.rs) makes of single rows: the share of a claim or of a pair of
    participants, in numbers, and the community two entities end in when nothing else touches them. */
module CommunityPairs {
  import opened Prelude
  import opened Records
  import opened Projection
  import opened ScopeWalk
  import opened Communities

  // ----- two entities that only meet each other -----

  function Lesser(a: string, b: string): string { if StringLe(a, b) then a else b }

  function Greater(a: string, b: string): string { if StringLe(a, b) then b else a }

  ghost predicate Together(cs: seq<Community>, a: string, b: string) {
    exists i :: 0 <= i < |cs| && a in cs[i].members && b in cs[i].members
  }

  /** From a half on the two form a community of their own, which nothing leads out of; its score is the weight,
      one at most. Under a half each stands alone with no score, a bridge to the other. */
  ghost predicate PairOutcome(cs: seq<Community>, a: string, b: string, weight: real) {
    && (Together(cs, a, b) <==> weight >= 0.5)
    && if weight >= 0.5 then
         Community("community:" + Lesser(a, b) + "-" + Greater(a, b), [Lesser(a, b), Greater(a, b)],
                   if weight <= 1.0 then weight else 1.0, []) in cs
       else
         Community("community:" + a, [a], 0.0, [a]) in cs && Community("community:" + b, [b], 0.0, [b]) in cs
  }

  /** The contributions join `a` and `b` with this weight in all, and touch neither of them otherwise. */
  ghost predicate Lone(parts: seq<Part>, a: string, b: string, weight: real) {
    && Paired(parts, Key(a, b)) && Total(parts, Key(a, b)) == weight
    && forall i :: 0 <= i < |parts| ==> Apart2(parts[i], a, b) || OnPair(parts[i], a, b)
  }

  predicate Apart2(p: Part, a: string, b: string) {
    p.left == p.right || (p.left != a && p.left != b && p.right != a && p.right != b)
  }

  predicate OnPair(p: Part, a: string, b: string) { (p.left == a && p.right == b) || (p.left == b && p.right == a) }

  lemma OnlyNeighbour(parts: seq<Part>, weights: map<Pair, real>, a: string, b: string, weight: real, y: string)
    requires a != b && Weighs(parts, weights) && Lone(parts, a, b, weight)
    ensures Key(a, b) in weights && weights[Key(a, b)] == weight
    ensures a != y && Key(a, y) in weights ==> y == b
  {
    if a != y && Key(a, y) in weights {
      var i :| 0 <= i < |parts| && parts[i].left != parts[i].right && Key(parts[i].left, parts[i].right) == Key(a, y);
      KeysMatch(parts[i].left, parts[i].right, a, y);
    }
  }

  lemma LoneTurns(parts: seq<Part>, a: string, b: string, weight: real)
    requires Lone(parts, a, b, weight)
    ensures Lone(parts, b, a, weight)
  {
    KeysMatch(a, b, a, b);
  }

  lemma PairClosed(parts: seq<Part>, weights: map<Pair, real>, a: string, b: string, weight: real)
    requires a != b && Weighs(parts, weights) && Lone(parts, a, b, weight)
    ensures Closed(weights, {a, b}) && (Strong(weights, a, b) <==> weight >= 0.5)
    ensures weight < 0.5 ==> Closed(weights, {a})
  {
    LoneTurns(parts, a, b, weight);
    OnlyNeighbour(parts, weights, a, b, weight, b);
    forall y ensures Strong(weights, a, y) ==> y == b && weight >= 0.5 { StrongOnly(parts, weights, a, b, weight, y); }
    forall y ensures Strong(weights, b, y) ==> y == a { StrongOnly(parts, weights, b, a, weight, y); }
  }

  lemma StrongOnly(parts: seq<Part>, weights: map<Pair, real>, a: string, b: string, weight: real, y: string)
    requires a != b && Weighs(parts, weights) && Lone(parts, a, b, weight)
    ensures Strong(weights, a, y) ==> y == b && weight >= 0.5
  {
    OnlyNeighbour(parts, weights, a, b, weight, y);
  }

  /** A community as the call describes it, with the component of `a` as its members. */
  ghost predicate Around(weights: map<Pair, real>, edges: seq<WeightedEdge>, c: Community, a: string) {
    Describes(edges, c) && forall y :: y in c.members <==> Connected(weights, a, y)
  }

  lemma DetectedAround(parts: seq<Part>, nodes: set<string>, cs: seq<Community>, weights: map<Pair, real>,
                       edges: seq<WeightedEdge>, i: nat, a: string)
    requires Detected(parts, nodes, cs, weights, edges) && i < |cs| && a in cs[i].members
    ensures Around(weights, edges, cs[i], a)
  {
  }

  lemma PairComponent(weights: map<Pair, real>, a: string, b: string, strong: bool, y: string)
    requires Closed(weights, {a, b}) && (strong <==> Strong(weights, a, b)) && (!strong ==> Closed(weights, {a}))
    ensures Connected(weights, a, y) <==> y == a || (strong && y == b)
  {
    ConnectedIsEquivalence(weights, a, a, a);
    if strong { assert Leads(weights, [a, b], a, b); }
    if Connected(weights, a, y) {
      ClosedIsWhole(weights, {a, b}, a, y);
      if !strong { ClosedIsWhole(weights, {a}, a, y); }
    }
  }

  lemma {:induction false} OneInternal(edges: seq<WeightedEdge>, members: set<string>, k: nat)
    requires forall i :: 0 <= i < |edges| ==> ((edges[i].left in members && edges[i].right in members) <==> i == k)
    ensures Internal(edges, members) == if k < |edges| then [edges[k]] else []
    decreases |edges|
  {
    if edges != [] { OneInternal(edges[..|edges| - 1], members, k); }
  }

  lemma EdgeOfPair(weights: map<Pair, real>, nodes: set<string>, edges: seq<WeightedEdge>, a: string, b: string)
    returns (k: nat)
    requires a != b && ListsEdges(weights, edges) && EndsAmong(weights, nodes) && Key(a, b) in weights
    ensures k < |edges| && PairOf(edges[k]) == Key(a, b) && edges[k].weight == Clip(weights[Key(a, b)])
    ensures forall i :: 0 <= i < |edges| ==> ((edges[i].left in {a, b} && edges[i].right in {a, b}) <==> i == k)
  {
    k :| 0 <= k < |edges| && PairOf(edges[k]) == Key(a, b);
    KeysMatch(a, b, a, b);
    forall i | 0 <= i < |edges| && edges[i].left in {a, b} && edges[i].right in {a, b} ensures i == k {
      var key := PairOf(edges[i]);
      assert key in weights;
      KeysMatch(key.0, key.1, a, b);
      assert PairsOf(edges)[i] == PairsOf(edges)[k];
    }
  }

  lemma PairScore(weights: map<Pair, real>, nodes: set<string>, edges: seq<WeightedEdge>, a: string, b: string)
    requires a != b && ListsEdges(weights, edges) && EndsAmong(weights, nodes) && Key(a, b) in weights
    ensures Score(edges, {a, b}) == Clip(weights[Key(a, b)])
  {
    var k := EdgeOfPair(weights, nodes, edges, a, b);
    OneInternal(edges, {a, b}, k);
    ScoreOfOne(edges, {a, b}, edges[k]);
  }

  lemma ScoreOfOne(edges: seq<WeightedEdge>, members: set<string>, e: WeightedEdge)
    requires Internal(edges, members) == [e]
    ensures Score(edges, members) == e.weight
  {
    assert [e][..0] == [];
    assert SumOf([]) == 0.0;
    assert SumOf([e]) == SumOf([e][..0]) + e.weight;
  }

  lemma LoneScore(weights: map<Pair, real>, nodes: set<string>, edges: seq<WeightedEdge>, a: string)
    requires ListsEdges(weights, edges) && EndsAmong(weights, nodes)
    ensures Score(edges, {a}) == 0.0
  {
    forall i | 0 <= i < |edges| ensures edges[i].left != edges[i].right {
      var key := PairOf(edges[i]);
      assert key in weights;
    }
    OneInternal(edges, {a}, |edges|);
  }

  lemma PairBridges(parts: seq<Part>, weights: map<Pair, real>, nodes: set<string>, edges: seq<WeightedEdge>, a: string,
                    b: string, weight: real)
    requires a != b && Weighs(parts, weights) && ListsEdges(weights, edges) && EndsAmong(weights, nodes)
    requires Lone(parts, a, b, weight)
    ensures !LeadsOut(edges, {a, b}, a) && LeadsOut(edges, {a}, a)
  {
    OnlyNeighbour(parts, weights, a, b, weight, b);
    if LeadsOut(edges, {a, b}, a) {
      var y := OutEdge(weights, nodes, edges, {a, b}, a);
      OnlyNeighbour(parts, weights, a, b, weight, y);
    }
    EdgeLeadsOut(weights, edges, {a}, a, b);
  }

  lemma SortedPair(members: seq<string>, a: string, b: string)
    requires a != b && StrictlySorted(StringLe, members) && Elements(members) == {a, b}
    ensures members == [Lesser(a, b), Greater(a, b)]
  {
    StringsAreOrdered();
    var pair := [Lesser(a, b), Greater(a, b)];
    forall x ensures x in members <==> x in pair { assert x in members <==> x in Elements(members); }
    SortedIsUnique(StringLe, members, pair);
  }

  lemma SortedOne(members: seq<string>, a: string)
    requires StrictlySorted(StringLe, members) && Elements(members) == {a}
    ensures members == [a]
  {
    StringsAreOrdered();
    forall x ensures x in members <==> x in [a] { assert x in members <==> x in Elements(members); }
    SortedIsUnique(StringLe, members, [a]);
  }

  lemma PairDescribed(edges: seq<WeightedEdge>, c: Community, a: string, b: string, score: real)
    requires a != b && Describes(edges, c) && Elements(c.members) == {a, b}
    requires Score(edges, {a, b}) == score && !LeadsOut(edges, {a, b}, a) && !LeadsOut(edges, {a, b}, b)
    ensures c == Community("community:" + Lesser(a, b) + "-" + Greater(a, b), [Lesser(a, b), Greater(a, b)], score, [])
  {
    SortedPair(c.members, a, b);
    forall x ensures x !in c.bridges { assert x in c.members <==> x in Elements(c.members); }
    FirstIsElement(c.bridges);
    PairName(Lesser(a, b), Greater(a, b));
  }

  lemma FirstIsElement(s: seq<string>)
    ensures s != [] ==> s[0] in s
  {
  }

  lemma PairName(l: string, g: string)
    ensures "community:" + JoinWith([l, g]) == "community:" + l + "-" + g
  {
    assert [l, g][1..] == [g];
    assert JoinWith([l, g]) == l + "-" + g;
  }

  lemma OneDescribed(edges: seq<WeightedEdge>, c: Community, a: string)
    requires Describes(edges, c) && Elements(c.members) == {a} && Score(edges, {a}) == 0.0 && LeadsOut(edges, {a}, a)
    ensures c == Community("community:" + a, [a], 0.0, [a])
  {
    SortedOne(c.members, a);
    forall x ensures x in c.bridges <==> x == a { assert x in c.members <==> x == a; }
    assert Elements(c.bridges) == {a};
    SortedOne(c.bridges, a);
  }

  lemma StrongPair(parts: seq<Part>, nodes: set<string>, c: Community, weights: map<Pair, real>,
                   edges: seq<WeightedEdge>, a: string, b: string, weight: real)
    requires a != b && Weighs(parts, weights) && ListsEdges(weights, edges) && EndsAmong(weights, nodes)
    requires Around(weights, edges, c, a) && Lone(parts, a, b, weight) && weight >= 0.5
    ensures c == Community("community:" + Lesser(a, b) + "-" + Greater(a, b), [Lesser(a, b), Greater(a, b)],
                           if weight <= 1.0 then weight else 1.0, [])
  {
    PairClosed(parts, weights, a, b, weight);
    PairHolds(weights, edges, c, a, b);
    OnlyNeighbour(parts, weights, a, b, weight, b);
    PairScore(weights, nodes, edges, a, b);
    NoBridges(parts, weights, nodes, edges, a, b, weight);
    PairDescribed(edges, c, a, b, Clip(weight));
  }

  lemma PairHolds(weights: map<Pair, real>, edges: seq<WeightedEdge>, c: Community, a: string, b: string)
    requires Around(weights, edges, c, a) && Closed(weights, {a, b}) && Strong(weights, a, b)
    ensures Elements(c.members) == {a, b}
  {
    forall y ensures y in c.members <==> y in {a, b} { PairComponent(weights, a, b, true, y); }
  }

  lemma NoBridges(parts: seq<Part>, weights: map<Pair, real>, nodes: set<string>, edges: seq<WeightedEdge>, a: string,
                  b: string, weight: real)
    requires a != b && Weighs(parts, weights) && ListsEdges(weights, edges) && EndsAmong(weights, nodes)
    requires Lone(parts, a, b, weight)
    ensures !LeadsOut(edges, {a, b}, a) && !LeadsOut(edges, {a, b}, b)
  {
    LoneTurns(parts, a, b, weight);
    var pair := {a, b};
    assert {b, a} == pair;
    PairBridges(parts, weights, nodes, edges, a, b, weight);
    PairBridges(parts, weights, nodes, edges, b, a, weight);
  }

  lemma WeakPair(parts: seq<Part>, nodes: set<string>, c: Community, weights: map<Pair, real>,
                 edges: seq<WeightedEdge>, a: string, b: string, weight: real)
    requires a != b && Weighs(parts, weights) && ListsEdges(weights, edges) && EndsAmong(weights, nodes)
    requires Around(weights, edges, c, a) && Lone(parts, a, b, weight) && weight < 0.5
    ensures c == Community("community:" + a, [a], 0.0, [a])
  {
    PairClosed(parts, weights, a, b, weight);
    forall y ensures y in c.members <==> y in {a} { PairComponent(weights, a, b, false, y); }
    assert Elements(c.members) == {a};
    LoneScore(weights, nodes, edges, a);
    PairBridges(parts, weights, nodes, edges, a, b, weight);
    OneDescribed(edges, c, a);
  }

  /** Two entities that only meet each other. */
  lemma LonePair(parts: seq<Part>, nodes: set<string>, cs: seq<Community>, weights: map<Pair, real>,
                 edges: seq<WeightedEdge>, a: string, b: string, weight: real)
    requires a != b && a in nodes && b in nodes
    requires Detected(parts, nodes, cs, weights, edges) && Lone(parts, a, b, weight)
    ensures PairOutcome(cs, a, b, weight)
  {
    LoneTurns(parts, a, b, weight);
    var i := CommunityOf(parts, nodes, cs, weights, edges, a);
    var j := CommunityOf(parts, nodes, cs, weights, edges, b);
    if weight >= 0.5 {
      StrongPair(parts, nodes, cs[i], weights, edges, a, b, weight);
      assert a in [Lesser(a, b), Greater(a, b)] && b in [Lesser(a, b), Greater(a, b)];
    } else {
      WeakPair(parts, nodes, cs[i], weights, edges, a, b, weight);
      WeakPair(parts, nodes, cs[j], weights, edges, b, a, weight);
      forall k | 0 <= k < |cs| && a in cs[k].members ensures b !in cs[k].members {
        DetectedAround(parts, nodes, cs, weights, edges, k, a);
        WeakPair(parts, nodes, cs[k], weights, edges, a, b, weight);
      }
    }
  }

  lemma CommunityOf(parts: seq<Part>, nodes: set<string>, cs: seq<Community>, weights: map<Pair, real>,
                    edges: seq<WeightedEdge>, a: string) returns (i: nat)
    requires Detected(parts, nodes, cs, weights, edges) && a in nodes
    ensures i < |cs| && a in cs[i].members && cs[i] in cs && Around(weights, edges, cs[i], a)
  {
    i :| 0 <= i < |cs| && a in cs[i].members;
    DetectedAround(parts, nodes, cs, weights, edges, i, a);
  }

  // ----- contributions of rows -----

  /** Neither entity is an end of the claim. */
  predicate ClaimApart(c: ClaimRow, a: string, b: string) {
    c.subject != a && c.subject != b && c.object_ != a && c.object_ != b
  }

  predicate HyperedgeApart(h: HyperedgeRow, a: string, b: string) {
    forall i | 0 <= i < |h.participants| :: h.participants[i].entity != a && h.participants[i].entity != b
  }

  predicate ClaimAdmitted(core: ClaimTables, scope: string, walk: Walk, id: int) {
    id in core.claims && core.claims[id].status == Active && Admits(scope, walk, core.claims[id].scope)
  }

  /** No admitted claim but `id` touches either entity. */
  ghost predicate NoOtherClaim(core: ClaimTables, scope: string, walk: Walk, ids: set<int>, a: string, b: string) {
    forall other :: ClaimAdmitted(core, scope, walk, other) && other !in ids ==> ClaimApart(core.claims[other], a, b)
  }

  ghost predicate NoOtherHyperedge(core: ClaimTables, scope: string, walk: Walk, ids: set<int>, a: string, b: string) {
    Admits(scope, walk, "global") ==>
      forall other :: other in core.hyperedges && other !in ids ==> HyperedgeApart(core.hyperedges[other], a, b)
  }

  lemma AdmittedListed(core: ClaimTables, scope: string, walk: Walk)
    ensures StrictlySorted(IntLe, AdmittedClaims(core, scope, walk))
    ensures forall id :: id in AdmittedClaims(core, scope, walk) <==> ClaimAdmitted(core, scope, walk, id)
    ensures StrictlySorted(IntLe, AdmittedHyperedges(core, scope, walk))
    ensures forall id :: id in AdmittedHyperedges(core, scope, walk) <==>
              Admits(scope, walk, "global") && id in core.hyperedges
  {
    HyperedgesAreGlobalRows(scope, walk);
  }

  ghost predicate AllApart(parts: seq<Part>, a: string, b: string) {
    forall i :: 0 <= i < |parts| ==> Apart2(parts[i], a, b)
  }

  lemma {:induction false} ApartTotal(parts: seq<Part>, a: string, b: string)
    requires AllApart(parts, a, b)
    ensures Total(parts, Key(a, b)) == 0.0
    decreases |parts|
  {
    if parts != [] {
      ApartTotal(parts[..|parts| - 1], a, b);
      var p := parts[|parts| - 1];
      KeysMatch(p.left, p.right, a, b);
    }
  }

  lemma {:induction false} TotalAppend(x: seq<Part>, y: seq<Part>, key: Pair)
    ensures Total(x + y, key) == Total(x, key) + Total(y, key)
    decreases |y|
  {
    if y == [] {
      assert x + y == x;
    } else {
      var front := y[..|y| - 1];
      assert (x + y)[..|x + y| - 1] == x + front;
      TotalAppend(x, front, key);
    }
  }

  /** One contribution among others that touch neither entity. */
  lemma LoneAmong(before: seq<Part>, p: Part, after: seq<Part>, a: string, b: string)
    requires a != b && AllApart(before, a, b) && AllApart(after, a, b) && OnPair(p, a, b)
    ensures Lone(before + [p] + after, a, b, p.weight)
  {
    var parts := before + [p] + after;
    ApartTotal(before, a, b);
    ApartTotal(after, a, b);
    TotalAppend(before + [p], after, Key(a, b));
    TotalAppend(before, [p], Key(a, b));
    KeysMatch(p.left, p.right, a, b);
    TotalOfOne(p, Key(a, b));
    assert parts[|before|] == p;
    assert Paired(parts, Key(a, b));
  }

  lemma TotalOfOne(p: Part, key: Pair)
    ensures Total([p], key) == if p.left != p.right && Key(p.left, p.right) == key then p.weight else 0.0
  {
    assert [p][..0] == [];
    assert Total([], key) == 0.0;
  }

  lemma {:induction false} ClaimsApart(claims: map<int, ClaimRow>, ids: seq<int>, a: string, b: string)
    requires forall k :: 0 <= k < |ids| ==> ids[k] in claims && ClaimApart(claims[ids[k]], a, b)
    ensures AllApart(ClaimParts(claims, ids), a, b)
    decreases |ids|
  {
    if ids != [] { ClaimsApart(claims, ids[..|ids| - 1], a, b); }
  }

  lemma {:induction false} ParticipantsApart(participants: seq<Participant>, weight: real, l: nat, a: string, b: string)
    requires forall i :: 0 <= i < |participants| ==> participants[i].entity != a && participants[i].entity != b
    ensures AllApart(PairParts(participants, weight, l), a, b)
    decreases |participants| - l
  {
    if l < |participants| {
      PairsApart(participants, weight, l, l + 1, a, b);
      ParticipantsApart(participants, weight, l + 1, a, b);
    }
  }

  lemma {:induction false} PairsApart(participants: seq<Participant>, weight: real, l: nat, r: nat, a: string,
                                      b: string)
    requires l < |participants|
    requires forall i :: 0 <= i < |participants| ==> participants[i].entity != a && participants[i].entity != b
    ensures AllApart(PairsFrom(participants, weight, l, r), a, b)
    decreases |participants| - r
  {
    if r < |participants| { PairsApart(participants, weight, l, r + 1, a, b); }
  }

  lemma {:induction false} HyperedgesApart(hyperedges: map<int, HyperedgeRow>, ids: seq<int>, a: string, b: string)
    requires forall k :: 0 <= k < |ids| ==> ids[k] in hyperedges && HyperedgeApart(hyperedges[ids[k]], a, b)
    ensures AllApart(HyperedgeParts(hyperedges, ids), a, b)
    decreases |ids|
  {
    if ids != [] {
      HyperedgesApart(hyperedges, ids[..|ids| - 1], a, b);
      var h := hyperedges[ids[|ids| - 1]];
      ParticipantsApart(h.participants, Share(h.confidence, h.provenance), 0, a, b);
    }
  }

  function ClaimPartOf(c: ClaimRow): Part { Part(c.subject, c.object_, Share(c.confidence, c.provenance)) }

  lemma {:induction false} ClaimPartsAppend(claims: map<int, ClaimRow>, x: seq<int>, y: seq<int>)
    requires forall k :: 0 <= k < |x| ==> x[k] in claims
    requires forall k :: 0 <= k < |y| ==> y[k] in claims
    ensures ClaimParts(claims, x + y) == ClaimParts(claims, x) + ClaimParts(claims, y)
    decreases |y|
  {
    if y == [] {
      assert x + y == x;
    } else {
      assert (x + y)[..|x + y| - 1] == x + y[..|y| - 1];
      ClaimPartsAppend(claims, x, y[..|y| - 1]);
      var last := ClaimPartOf(claims[y[|y| - 1]]);
      assert ClaimParts(claims, y) == ClaimParts(claims, y[..|y| - 1]) + [last];
      assert ClaimParts(claims, x + y) == ClaimParts(claims, x + y[..|y| - 1]) + [last];
    }
  }

  function HyperedgePartsOf(h: HyperedgeRow): seq<Part> {
    PairParts(h.participants, Share(h.confidence, h.provenance), 0)
  }

  lemma LastHyperedge(hyperedges: map<int, HyperedgeRow>, ids: seq<int>, id: int)
    requires id in hyperedges && forall k :: 0 <= k < |ids| ==> ids[k] in hyperedges
    ensures HyperedgeParts(hyperedges, ids + [id]) ==
            HyperedgeParts(hyperedges, ids) + HyperedgePartsOf(hyperedges[id])
  {
    var all := ids + [id];
    assert all[..|all| - 1] == ids && all[|all| - 1] == id;
  }

  lemma {:induction false} HyperedgePartsAppend(hyperedges: map<int, HyperedgeRow>, x: seq<int>, y: seq<int>)
    requires forall k :: 0 <= k < |x| ==> x[k] in hyperedges
    requires forall k :: 0 <= k < |y| ==> y[k] in hyperedges
    ensures HyperedgeParts(hyperedges, x + y) == HyperedgeParts(hyperedges, x) + HyperedgeParts(hyperedges, y)
    decreases |y|
  {
    if y == [] {
      assert x + y == x;
    } else {
      var front, id := y[..|y| - 1], y[|y| - 1];
      HyperedgePartsAppend(hyperedges, x, front);
      LastHyperedge(hyperedges, x + front, id);
      LastHyperedge(hyperedges, front, id);
      assert front + [id] == y && (x + front) + [id] == x + y;
    }
  }

  /** An id's place in an ascending list. */
  lemma SplitAt(ids: seq<int>, id: int) returns (x: seq<int>, y: seq<int>)
    requires StrictlySorted(IntLe, ids) && id in ids
    ensures ids == x + [id] + y && id !in x && id !in y
  {
    var k :| 0 <= k < |ids| && ids[k] == id;
    x, y := ids[..k], ids[k + 1..];
  }

  // ----- one claim, one hyperedge, two claims -----

  lemma ClaimsAround(core: ClaimTables, scope: string, walk: Walk, id: int, a: string, b: string)
    returns (before: seq<Part>, after: seq<Part>)
    requires ClaimAdmitted(core, scope, walk, id) && NoOtherClaim(core, scope, walk, {id}, a, b)
    ensures ClaimParts(core.claims, AdmittedClaims(core, scope, walk)) ==
            before + [ClaimPartOf(core.claims[id])] + after
    ensures AllApart(before, a, b) && AllApart(after, a, b)
  {
    var ids := AdmittedClaims(core, scope, walk);
    AdmittedListed(core, scope, walk);
    assert id in ids;
    var x, y := SplitAt(ids, id);
    forall k | 0 <= k < |x| ensures x[k] in core.claims && ClaimApart(core.claims[x[k]], a, b) {
      assert x[k] == ids[k] && x[k] in x && ids[k] in ids;
    }
    forall k | 0 <= k < |y| ensures y[k] in core.claims && ClaimApart(core.claims[y[k]], a, b) {
      assert y[k] == ids[|x| + 1 + k] && y[k] in y && ids[|x| + 1 + k] in ids;
    }
    ClaimsApart(core.claims, x, a, b);
    ClaimsApart(core.claims, y, a, b);
    ClaimPartsAppend(core.claims, x, [id]);
    ClaimPartsAppend(core.claims, x + [id], y);
    OneClaimPart(core.claims, id);
    before, after := ClaimParts(core.claims, x), ClaimParts(core.claims, y);
  }

  lemma OneClaimPart(claims: map<int, ClaimRow>, id: int)
    requires id in claims
    ensures ClaimParts(claims, [id]) == [ClaimPartOf(claims[id])]
  {
    assert [id][..0] == [];
    assert ClaimParts(claims, []) == [];
  }

  lemma NoClaimTouches(core: ClaimTables, scope: string, walk: Walk, a: string, b: string)
    requires NoOtherClaim(core, scope, walk, {}, a, b)
    ensures AllApart(ClaimParts(core.claims, AdmittedClaims(core, scope, walk)), a, b)
  {
    var ids := AdmittedClaims(core, scope, walk);
    AdmittedListed(core, scope, walk);
    forall k | 0 <= k < |ids| ensures ids[k] in core.claims && ClaimApart(core.claims[ids[k]], a, b) {
      var id := ids[k];
      assert id in ids && id !in {};
    }
    ClaimsApart(core.claims, ids, a, b);
  }

  lemma HyperedgesAround(core: ClaimTables, scope: string, walk: Walk, id: int, a: string, b: string)
    returns (before: seq<Part>, after: seq<Part>)
    requires Admits(scope, walk, "global") && id in core.hyperedges
    requires NoOtherHyperedge(core, scope, walk, {id}, a, b)
    ensures HyperedgeParts(core.hyperedges, AdmittedHyperedges(core, scope, walk)) ==
            before + HyperedgeParts(core.hyperedges, [id]) + after
    ensures AllApart(before, a, b) && AllApart(after, a, b)
  {
    var hs := AdmittedHyperedges(core, scope, walk);
    AdmittedListed(core, scope, walk);
    assert id in hs;
    var x, y := OthersApart(core.hyperedges, hs, id, a, b);
    HyperedgesApart(core.hyperedges, x, a, b);
    HyperedgesApart(core.hyperedges, y, a, b);
    HyperedgePartsAppend(core.hyperedges, x, [id]);
    HyperedgePartsAppend(core.hyperedges, x + [id], y);
    before, after := HyperedgeParts(core.hyperedges, x), HyperedgeParts(core.hyperedges, y);
  }

  lemma OthersApart(hyperedges: map<int, HyperedgeRow>, hs: seq<int>, id: int, a: string, b: string)
    returns (x: seq<int>, y: seq<int>)
    requires StrictlySorted(IntLe, hs) && id in hs && forall other :: other in hs ==> other in hyperedges
    requires forall other :: other in hyperedges && other != id ==> HyperedgeApart(hyperedges[other], a, b)
    ensures hs == x + [id] + y
    ensures forall k :: 0 <= k < |x| ==> x[k] in hyperedges && HyperedgeApart(hyperedges[x[k]], a, b)
    ensures forall k :: 0 <= k < |y| ==> y[k] in hyperedges && HyperedgeApart(hyperedges[y[k]], a, b)
  {
    x, y := SplitAt(hs, id);
    forall k | 0 <= k < |x| ensures x[k] in hyperedges && HyperedgeApart(hyperedges[x[k]], a, b) {
      assert x[k] == hs[k] && x[k] in x && hs[k] in hs;
    }
    forall k | 0 <= k < |y| ensures y[k] in hyperedges && HyperedgeApart(hyperedges[y[k]], a, b) {
      assert y[k] == hs[|x| + 1 + k] && y[k] in y && hs[|x| + 1 + k] in hs;
    }
  }

  lemma NoHyperedgeTouches(core: ClaimTables, scope: string, walk: Walk, a: string, b: string)
    requires NoOtherHyperedge(core, scope, walk, {}, a, b)
    ensures AllApart(HyperedgeParts(core.hyperedges, AdmittedHyperedges(core, scope, walk)), a, b)
  {
    var hs := AdmittedHyperedges(core, scope, walk);
    AdmittedListed(core, scope, walk);
    forall k | 0 <= k < |hs| ensures hs[k] in core.hyperedges && HyperedgeApart(core.hyperedges[hs[k]], a, b) {
      var id := hs[k];
      assert id in hs && id !in {};
    }
    HyperedgesApart(core.hyperedges, hs, a, b);
  }

  lemma ApartAppend(x: seq<Part>, y: seq<Part>, a: string, b: string)
    requires AllApart(x, a, b) && AllApart(y, a, b)
    ensures AllApart(x + y, a, b)
  {
  }

  lemma RatesAre(cs: seq<Community>, a: string, b: string, confidence: real, provenance: Provenance)
    requires PairOutcome(cs, a, b, Share(confidence, provenance))
    ensures ByProvenance(cs, a, b, confidence, provenance)
  {
  }

  /** The rate of each provenance, and that an ambiguous row never comes to a half. */
  ghost predicate ByProvenance(cs: seq<Community>, a: string, b: string, confidence: real, provenance: Provenance) {
    && (provenance == UserAsserted ==> PairOutcome(cs, a, b, confidence))
    && (provenance == Extracted ==> PairOutcome(cs, a, b, 0.95 * confidence))
    && (provenance == Inferred ==> PairOutcome(cs, a, b, 0.65 * confidence))
    && (provenance == Ambiguous ==> PairOutcome(cs, a, b, 0.35 * confidence))
    && (provenance == Ambiguous && Within(confidence) ==> !Together(cs, a, b))
  }

  lemma RatedPair(parts: seq<Part>, nodes: set<string>, cs: seq<Community>, weights: map<Pair, real>,
                  edges: seq<WeightedEdge>, a: string, b: string, confidence: real, provenance: Provenance)
    requires a != b && a in nodes && b in nodes && Detected(parts, nodes, cs, weights, edges)
    requires Lone(parts, a, b, Share(confidence, provenance))
    ensures ByProvenance(cs, a, b, confidence, provenance)
  {
    var weight := Share(confidence, provenance);
    LonePair(parts, nodes, cs, weights, edges, a, b, weight);
    RatesAre(cs, a, b, confidence, provenance);
  }

  lemma RatedAlways(parts: seq<Part>, nodes: set<string>, a: string, b: string, confidence: real,
                    provenance: Provenance)
    requires a != b && a in nodes && b in nodes && Lone(parts, a, b, Share(confidence, provenance))
    ensures AlwaysByProvenance(parts, nodes, a, b, confidence, provenance)
  {
    forall cs, weights, edges | Detected(parts, nodes, cs, weights, edges)
      ensures ByProvenance(cs, a, b, confidence, provenance)
    {
      RatedPair(parts, nodes, cs, weights, edges, a, b, confidence, provenance);
    }
  }

  /** Whatever the call may return for these contributions. */
  ghost predicate AlwaysByProvenance(parts: seq<Part>, nodes: set<string>, a: string, b: string, confidence: real,
                                     provenance: Provenance) {
    forall cs, weights, edges :: Detected(parts, nodes, cs, weights, edges) ==>
        ByProvenance(cs, a, b, confidence, provenance)
  }

  /** One admitted claim joins two entities that nothing else touches: they share a community exactly when its
      confidence, at the rate of its provenance, comes to a half. */
  lemma OneClaimPair(core: ClaimTables, scope: string, walk: Walk, id: int, a: string, b: string)
    requires a != b
    requires ClaimAdmitted(core, scope, walk, id) && core.claims[id].subject == a && core.claims[id].object_ == b
    requires NoOtherClaim(core, scope, walk, {id}, a, b) && NoOtherHyperedge(core, scope, walk, {}, a, b)
    ensures AlwaysByProvenance(Parts(core, scope, walk), Nodes(core, scope, walk), a, b, core.claims[id].confidence,
                               core.claims[id].provenance)
  {
    OneClaimLone(core, scope, walk, id, a, b);
    ClaimEndsAreNodes(core, scope, walk, id);
    var parts, nodes := Parts(core, scope, walk), Nodes(core, scope, walk);
    RatedAlways(parts, nodes, a, b, core.claims[id].confidence, core.claims[id].provenance);
  }

  lemma LoneClaimPart(claims: seq<Part>, hyper: seq<Part>, before: seq<Part>, p: Part, rest: seq<Part>, a: string,
                      b: string)
    requires claims == before + [p] + rest && AllApart(before, a, b) && AllApart(rest, a, b) && AllApart(hyper, a, b)
    requires a != b && OnPair(p, a, b)
    ensures Lone(claims + hyper, a, b, p.weight)
  {
    ApartAppend(rest, hyper, a, b);
    LoneAmong(before, p, rest + hyper, a, b);
    assert claims + hyper == before + [p] + (rest + hyper);
  }

  lemma LoneHyperedgePart(claims: seq<Part>, hyper: seq<Part>, start: seq<Part>, p: Part, after: seq<Part>, a: string,
                          b: string)
    requires hyper == start + [p] + after && AllApart(claims, a, b) && AllApart(start, a, b) && AllApart(after, a, b)
    requires a != b && OnPair(p, a, b)
    ensures Lone(claims + hyper, a, b, p.weight)
  {
    ApartAppend(claims, start, a, b);
    LoneAmong(claims + start, p, after, a, b);
    assert claims + hyper == claims + start + [p] + after;
  }

  lemma OneClaimLone(core: ClaimTables, scope: string, walk: Walk, id: int, a: string, b: string)
    requires ClaimAdmitted(core, scope, walk, id) && core.claims[id].subject == a && core.claims[id].object_ == b
    requires a != b && NoOtherClaim(core, scope, walk, {id}, a, b) && NoOtherHyperedge(core, scope, walk, {}, a, b)
    ensures Lone(Parts(core, scope, walk), a, b, Share(core.claims[id].confidence, core.claims[id].provenance))
  {
    var before, rest := ClaimsAround(core, scope, walk, id, a, b);
    NoHyperedgeTouches(core, scope, walk, a, b);
    var p, hyper := ClaimPartOf(core.claims[id]),
                    HyperedgeParts(core.hyperedges, AdmittedHyperedges(core, scope, walk));
    var claims := ClaimParts(core.claims, AdmittedClaims(core, scope, walk));
    LoneClaimPart(claims, hyper, before, p, rest, a, b);
  }

  lemma ClaimEndsAreNodes(core: ClaimTables, scope: string, walk: Walk, id: int)
    requires ClaimAdmitted(core, scope, walk, id)
    ensures core.claims[id].subject in Nodes(core, scope, walk) && core.claims[id].object_ in Nodes(core, scope, walk)
  {
    var ids := AdmittedClaims(core, scope, walk);
    AdmittedListed(core, scope, walk);
    AdmittedAmong(core, scope, walk);
    assert id in ids;
    var k :| 0 <= k < |ids| && ids[k] == id;
  }

  /** Likewise for one hyperedge with two participants. */
  lemma OneHyperedgePair(core: ClaimTables, scope: string, walk: Walk, id: int, a: string, b: string)
    requires a != b
    requires Admits(scope, walk, "global") && id in core.hyperedges && TwoEnds(core.hyperedges[id], a, b)
    requires NoOtherClaim(core, scope, walk, {}, a, b) && NoOtherHyperedge(core, scope, walk, {id}, a, b)
    ensures AlwaysByProvenance(Parts(core, scope, walk), Nodes(core, scope, walk), a, b, core.hyperedges[id].confidence,
                               core.hyperedges[id].provenance)
  {
    OneHyperedgeLone(core, scope, walk, id, a, b);
    EndsAreNodes(core, scope, walk, id, 0);
    EndsAreNodes(core, scope, walk, id, 1);
    var parts, nodes := Parts(core, scope, walk), Nodes(core, scope, walk);
    RatedAlways(parts, nodes, a, b, core.hyperedges[id].confidence, core.hyperedges[id].provenance);
  }

  predicate TwoEnds(h: HyperedgeRow, a: string, b: string) {
    |h.participants| == 2 && h.participants[0].entity == a && h.participants[1].entity == b
  }

  function PairPartOf(h: HyperedgeRow, a: string, b: string): Part {
    Part(a, b, Share(h.confidence, h.provenance))
  }

  lemma OneHyperedgeLone(core: ClaimTables, scope: string, walk: Walk, id: int, a: string, b: string)
    requires Admits(scope, walk, "global") && id in core.hyperedges && a != b && TwoEnds(core.hyperedges[id], a, b)
    requires NoOtherClaim(core, scope, walk, {}, a, b) && NoOtherHyperedge(core, scope, walk, {id}, a, b)
    ensures Lone(Parts(core, scope, walk), a, b, Share(core.hyperedges[id].confidence, core.hyperedges[id].provenance))
  {
    var start, after := HyperedgesAround(core, scope, walk, id, a, b);
    NoClaimTouches(core, scope, walk, a, b);
    TwoParticipants(core.hyperedges, id, a, b);
    var claims, p := ClaimParts(core.claims, AdmittedClaims(core, scope, walk)), PairPartOf(core.hyperedges[id], a, b);
    var hyper := HyperedgeParts(core.hyperedges, AdmittedHyperedges(core, scope, walk));
    LoneHyperedgePart(claims, hyper, start, p, after, a, b);
  }

  lemma EndsAreNodes(core: ClaimTables, scope: string, walk: Walk, id: int, l: nat)
    requires Admits(scope, walk, "global") && id in core.hyperedges && l < |core.hyperedges[id].participants|
    ensures core.hyperedges[id].participants[l].entity in Nodes(core, scope, walk)
  {
    var hs := AdmittedHyperedges(core, scope, walk);
    AdmittedListed(core, scope, walk);
    AdmittedAmong(core, scope, walk);
    assert id in hs;
    var k :| 0 <= k < |hs| && hs[k] == id;
    assert core.hyperedges[id].participants[l].entity in ParticipantNames(core.hyperedges[hs[k]].participants);
  }

  lemma TwoParticipants(hyperedges: map<int, HyperedgeRow>, id: int, a: string, b: string)
    requires id in hyperedges && TwoEnds(hyperedges[id], a, b)
    ensures HyperedgeParts(hyperedges, [id]) == [PairPartOf(hyperedges[id], a, b)]
  {
    var h := hyperedges[id];
    var weight := PairPartOf(h, a, b).weight;
    assert [id][..0] == [];
    assert HyperedgeParts(hyperedges, []) == [];
    assert PairsFrom(h.participants, weight, 0, 2) == [] && PairsFrom(h.participants, weight, 1, 2) == [];
    assert PairParts(h.participants, weight, 2) == [];
    assert PairParts(h.participants, weight, 0) ==
           PairsFrom(h.participants, weight, 0, 1) + PairParts(h.participants, weight, 1);
  }

  // ----- any row strong enough on its own -----

  lemma {:induction false} TotalAtLeast(parts: seq<Part>, k: nat)
    requires NotNegative(parts) && k < |parts| && parts[k].left != parts[k].right
    ensures Total(parts, Key(parts[k].left, parts[k].right)) >= parts[k].weight
    decreases |parts|
  {
    var front := parts[..|parts| - 1];
    if k < |front| {
      TotalAtLeast(front, k);
    } else {
      TotalNotNegative(front, Key(parts[k].left, parts[k].right));
    }
  }

  lemma HeavyIsStrong(parts: seq<Part>, weights: map<Pair, real>, nodes: set<string>, k: nat)
    requires Weighs(parts, weights) && EndsAmong(weights, nodes) && NotNegative(parts)
    requires k < |parts| && parts[k].left != parts[k].right && parts[k].weight >= 0.5
    ensures Strong(weights, parts[k].left, parts[k].right) && parts[k].left in nodes
  {
    var a, b := parts[k].left, parts[k].right;
    TotalAtLeast(parts, k);
    assert Paired(parts, Key(a, b));
    assert Key(a, b) in weights;
    KeysMatch(a, b, a, b);
  }

  lemma StrongShares(weights: map<Pair, real>, edges: seq<WeightedEdge>, c: Community, a: string, b: string)
    requires Around(weights, edges, c, a) && Strong(weights, a, b)
    ensures b in c.members
  {
    assert Leads(weights, [a, b], a, b);
  }

  lemma StrongPartJoins(parts: seq<Part>, nodes: set<string>, cs: seq<Community>, weights: map<Pair, real>,
                        edges: seq<WeightedEdge>, k: nat)
    requires Detected(parts, nodes, cs, weights, edges) && NotNegative(parts)
    requires k < |parts| && parts[k].left != parts[k].right && parts[k].weight >= 0.5
    ensures Together(cs, parts[k].left, parts[k].right)
  {
    var a, b := parts[k].left, parts[k].right;
    HeavyIsStrong(parts, weights, nodes, k);
    var i := CommunityOf(parts, nodes, cs, weights, edges, a);
    StrongShares(weights, edges, cs[i], a, b);
  }

  /** At the rate of its provenance the confidence comes to a half. */
  predicate ComesToHalf(confidence: real, provenance: Provenance) {
    match provenance
    case UserAsserted => 1.0 * confidence >= 0.5
    case Extracted => 0.95 * confidence >= 0.5
    case Inferred => 0.65 * confidence >= 0.5
    case Ambiguous => 0.35 * confidence >= 0.5
  }

  lemma HalfIsShare(confidence: real, provenance: Provenance)
    ensures ComesToHalf(confidence, provenance) <==> Share(confidence, provenance) >= 0.5
  {
  }

  ghost predicate ConfidencesNotNegative(core: ClaimTables) {
    && (forall id :: id in core.claims ==> Within(core.claims[id].confidence))
    && (forall id :: id in core.hyperedges ==> Within(core.hyperedges[id].confidence))
  }

  lemma PartsNotNegative(core: ClaimTables, scope: string, walk: Walk)
    requires ConfidencesNotNegative(core)
    ensures NotNegative(Parts(core, scope, walk))
  {
    ClaimPartsNotNegative(core.claims, AdmittedClaims(core, scope, walk));
    HyperedgePartsNotNegative(core.hyperedges, AdmittedHyperedges(core, scope, walk));
  }

  lemma {:induction false} ClaimPartIn(claims: map<int, ClaimRow>, ids: seq<int>, k: nat)
    requires k < |ids| && forall j :: 0 <= j < |ids| ==> ids[j] in claims
    ensures ClaimPartOf(claims[ids[k]]) in ClaimParts(claims, ids)
    decreases |ids|
  {
    if k < |ids| - 1 { ClaimPartIn(claims, ids[..|ids| - 1], k); }
  }

  lemma {:induction false} PairIn(participants: seq<Participant>, weight: real, from: nat, l: nat, r: nat)
    requires from <= l < r < |participants|
    ensures Part(participants[l].entity, participants[r].entity, weight) in PairParts(participants, weight, from)
    decreases l - from
  {
    var first, rest := PairsFrom(participants, weight, from, from + 1), PairParts(participants, weight, from + 1);
    assert PairParts(participants, weight, from) == first + rest;
    if from == l { PairFromIn(participants, weight, l, l + 1, r); }
    else { PairIn(participants, weight, from + 1, l, r); }
    InEither(first, rest, Part(participants[l].entity, participants[r].entity, weight));
  }

  lemma InEither(first: seq<Part>, rest: seq<Part>, p: Part)
    ensures p in first || p in rest <==> p in first + rest
  {
  }

  lemma {:induction false} PairFromIn(participants: seq<Participant>, weight: real, l: nat, from: nat, r: nat)
    requires l < from <= r < |participants|
    ensures Part(participants[l].entity, participants[r].entity, weight) in PairsFrom(participants, weight, l, from)
    decreases r - from
  {
    if from < r { PairFromIn(participants, weight, l, from + 1, r); }
  }

  lemma {:induction false} HyperedgePartIn(hyperedges: map<int, HyperedgeRow>, ids: seq<int>, k: nat, p: Part)
    requires k < |ids| && forall j :: 0 <= j < |ids| ==> ids[j] in hyperedges
    requires var h := hyperedges[ids[k]]; p in PairParts(h.participants, Share(h.confidence, h.provenance), 0)
    ensures p in HyperedgeParts(hyperedges, ids)
    decreases |ids|
  {
    if k < |ids| - 1 { HyperedgePartIn(hyperedges, ids[..|ids| - 1], k, p); }
  }

  lemma PartJoins(parts: seq<Part>, nodes: set<string>, p: Part)
    requires p in parts && NotNegative(parts) && p.left != p.right && p.weight >= 0.5
    ensures forall cs, weights, edges :: Detected(parts, nodes, cs, weights, edges) ==> Together(cs, p.left, p.right)
  {
    var k :| 0 <= k < |parts| && parts[k] == p;
    forall cs, weights, edges | Detected(parts, nodes, cs, weights, edges) ensures Together(cs, p.left, p.right) {
      StrongPartJoins(parts, nodes, cs, weights, edges, k);
    }
  }

  /** Whatever else the store holds, an admitted claim that comes to a half joins its ends. */
  lemma StrongClaimJoins(core: ClaimTables, scope: string, walk: Walk, id: int)
    requires ConfidencesNotNegative(core) && ClaimAdmitted(core, scope, walk, id)
    requires core.claims[id].subject != core.claims[id].object_
    requires ComesToHalf(core.claims[id].confidence, core.claims[id].provenance)
    ensures forall cs, weights, edges ::
              Detected(Parts(core, scope, walk), Nodes(core, scope, walk), cs, weights, edges) ==>
                Together(cs, core.claims[id].subject, core.claims[id].object_)
  {
    var ids := AdmittedClaims(core, scope, walk);
    AdmittedListed(core, scope, walk);
    assert id in ids;
    var k :| 0 <= k < |ids| && ids[k] == id;
    ClaimPartIn(core.claims, ids, k);
    HalfIsShare(core.claims[id].confidence, core.claims[id].provenance);
    PartsNotNegative(core, scope, walk);
    PartJoins(Parts(core, scope, walk), Nodes(core, scope, walk), ClaimPartOf(core.claims[id]));
  }

  /** And a hyperedge that does joins any two of its participants. */
  lemma StrongHyperedgeJoins(core: ClaimTables, scope: string, walk: Walk, id: int, l: nat, r: nat)
    requires ConfidencesNotNegative(core) && Admits(scope, walk, "global") && id in core.hyperedges
    requires l < r < |core.hyperedges[id].participants|
    requires core.hyperedges[id].participants[l].entity != core.hyperedges[id].participants[r].entity
    requires ComesToHalf(core.hyperedges[id].confidence, core.hyperedges[id].provenance)
    ensures forall cs, weights, edges ::
              Detected(Parts(core, scope, walk), Nodes(core, scope, walk), cs, weights, edges) ==>
                Together(cs, core.hyperedges[id].participants[l].entity, core.hyperedges[id].participants[r].entity)
  {
    var hs, h := AdmittedHyperedges(core, scope, walk), core.hyperedges[id];
    AdmittedListed(core, scope, walk);
    assert id in hs;
    var k :| 0 <= k < |hs| && hs[k] == id;
    var weight := Share(h.confidence, h.provenance);
    PairIn(h.participants, weight, 0, l, r);
    var p := Part(h.participants[l].entity, h.participants[r].entity, weight);
    HyperedgePartIn(core.hyperedges, hs, k, p);
    HalfIsShare(h.confidence, h.provenance);
    PartsNotNegative(core, scope, walk);
    PartJoins(Parts(core, scope, walk), Nodes(core, scope, walk), p);
  }
}
