/** graph_path over the claim and hyperedge tables (crates/aver-core/src/graph.rs): which edges are
    admitted, their sorted order, and what the answer means in terms of routes through them. */
module PathQuery {
  import opened Prelude
  import opened Records
  import opened PredicateFilter
  import opened Projection
  import opened ScopeWalk
  import opened Writers
  import opened Trails
  import opened GraphPath

  datatype Query = Query(
    source: string, target: string, bidirectional: bool, maxHops: nat, predicates: Option<seq<string>>,
    provenances: Option<set<Provenance>>, minConfidence: real, scope: string, walk: Walk)

  datatype QueryError = InvalidGraphEntity | InvalidScope | InvalidConfidence | InvalidPredicateFilter

  /** A path found: its steps, the product of their confidences, the entities along the way. */
  datatype Path = Path(steps: seq<Edge>, confidence: real, entities: seq<string>)

  // ----- admission -----

  predicate Filtered(q: Query, filter: Option<set<string>>, provenance: Provenance, predicate_: string,
                     confidence: real) {
    && confidence >= q.minConfidence
    && (q.provenances.None? || provenance in q.provenances.value)
    && (filter.None? || predicate_ in filter.value)
  }

  ghost predicate EdgeOfClaim(q: Query, filter: Option<set<string>>, id: int, c: ClaimRow, e: Edge) {
    && c.status == Active && Admits(q.scope, q.walk, c.scope)
    && Filtered(q, filter, c.provenance, c.predicate_, c.confidence)
    && e.kindOrder == 0 && e.sourceId == id && e.confidence == c.confidence
    && ((e.from == c.subject && e.to == c.object_) || (q.bidirectional && e.from == c.object_ && e.to == c.subject))
  }

  ghost predicate EdgeOfHyperedge(q: Query, filter: Option<set<string>>, id: int, h: HyperedgeRow, e: Edge) {
    && HyperedgesInScope(q.scope, q.walk) && Filtered(q, filter, h.provenance, h.predicate_, h.confidence)
    && e.kindOrder == 1 && e.sourceId == id && e.confidence == h.confidence
    && LinksParticipants(h.participants, e.from, e.to)
  }

  ghost predicate LinksParticipants(participants: seq<Participant>, from: string, to: string) {
    exists l: nat, r: nat :: l < |participants| && r < |participants| && Links(participants, l, r, from, to)
  }

  /** Two different places, two different entities. */
  predicate Links(participants: seq<Participant>, l: nat, r: nat, from: string, to: string)
    requires l < |participants| && r < |participants|
  {
    l != r && participants[l].entity == from && participants[r].entity == to && from != to
  }

  /** The edges a query may use. */
  ghost predicate AdmittedEdge(core: ClaimTables, q: Query, filter: Option<set<string>>, e: Edge) {
    || (e.sourceId in core.claims && EdgeOfClaim(q, filter, e.sourceId, core.claims[e.sourceId], e))
    || (e.sourceId in core.hyperedges && EdgeOfHyperedge(q, filter, e.sourceId, core.hyperedges[e.sourceId], e))
  }

  // ----- the candidates, in sorted order -----

  method OneClaim(q: Query, filter: Option<set<string>>, id: int, c: ClaimRow) returns (edges: seq<Edge>)
    ensures forall e :: e in edges <==> EdgeOfClaim(q, filter, id, c, e)
  {
    edges := [];
    if c.status == Active && Admits(q.scope, q.walk, c.scope)
       && Filtered(q, filter, c.provenance, c.predicate_, c.confidence) {
      edges := [Edge(c.subject, c.object_, id, 0, c.confidence)];
      if q.bidirectional {
        edges := edges + [Edge(c.object_, c.subject, id, 0, c.confidence)];
      }
    }
  }

  method ClaimCandidates(claims: map<int, ClaimRow>, q: Query, filter: Option<set<string>>) returns (edges: seq<Edge>)
    ensures forall e :: e in edges <==>
              e.sourceId in claims && EdgeOfClaim(q, filter, e.sourceId, claims[e.sourceId], e)
  {
    var ids := SortSet(IntLe, claims.Keys);
    forall j | 0 <= j < |ids| ensures ids[j] in claims { var id := ids[j]; assert id in ids; }
    edges := ReadClaims(claims, q, filter, ids);
    forall e
      ensures AmongClaims(claims, q, filter, ids, |ids|, e) <==>
                e.sourceId in claims && EdgeOfClaim(q, filter, e.sourceId, claims[e.sourceId], e)
    {
      AllClaimsRead(claims, q, filter, ids, e);
    }
  }

  method ReadClaims(claims: map<int, ClaimRow>, q: Query, filter: Option<set<string>>, ids: seq<int>)
    returns (edges: seq<Edge>)
    requires forall j :: 0 <= j < |ids| ==> ids[j] in claims
    ensures forall e :: e in edges <==> AmongClaims(claims, q, filter, ids, |ids|, e)
  {
    edges := [];
    for k := 0 to |ids|
      invariant forall e :: e in edges <==> AmongClaims(claims, q, filter, ids, k, e)
    {
      var more := OneClaim(q, filter, ids[k], claims[ids[k]]);
      edges := edges + more;
    }
  }

  /** The edge comes from one of the first `k` claims read. */
  ghost predicate AmongClaims(claims: map<int, ClaimRow>, q: Query, filter: Option<set<string>>, ids: seq<int>, k: nat,
                              e: Edge)
    requires k <= |ids| && forall j :: 0 <= j < |ids| ==> ids[j] in claims
  {
    exists j :: 0 <= j < k && EdgeOfClaim(q, filter, ids[j], claims[ids[j]], e)
  }

  lemma AllClaimsRead(claims: map<int, ClaimRow>, q: Query, filter: Option<set<string>>, ids: seq<int>, e: Edge)
    requires (forall j :: 0 <= j < |ids| ==> ids[j] in claims) && forall id :: id in claims ==> id in ids
    ensures AmongClaims(claims, q, filter, ids, |ids|, e) <==>
              e.sourceId in claims && EdgeOfClaim(q, filter, e.sourceId, claims[e.sourceId], e)
  {
    if e.sourceId in claims && EdgeOfClaim(q, filter, e.sourceId, claims[e.sourceId], e) {
      var j :| 0 <= j < |ids| && ids[j] == e.sourceId;
      assert EdgeOfClaim(q, filter, ids[j], claims[ids[j]], e);
    }
  }

  /** One hyperedge: an edge for every ordered pair of participants whose entities differ. */
  method PairCandidates(id: int, h: HyperedgeRow) returns (edges: seq<Edge>)
    ensures forall e :: e in edges <==>
              e.kindOrder == 1 && e.sourceId == id && e.confidence == h.confidence
              && LinksParticipants(h.participants, e.from, e.to)
  {
    edges := [];
    var n := |h.participants|;
    for l := 0 to n
      invariant forall e :: e in edges <==> PairBefore(id, h, e, l, 0)
    {
      for r := 0 to n
        invariant forall e :: e in edges <==> PairBefore(id, h, e, l, r)
      {
        ghost var before := edges;
        var left, right := h.participants[l].entity, h.participants[r].entity;
        if l != r && left != right {
          edges := edges + [Edge(left, right, id, 1, h.confidence)];
        }
        assert forall e :: e in edges <==> e in before || PairAt(id, h, e, l, r);
      }
    }
  }

  ghost predicate PairAt(id: int, h: HyperedgeRow, e: Edge, l: nat, r: nat)
    requires l < |h.participants| && r < |h.participants|
  {
    e.sourceId == id && e.kindOrder == 1 && e.confidence == h.confidence && Links(h.participants, l, r, e.from, e.to)
  }

  /** The pair is met before position (l, r) of the double loop. */
  ghost predicate PairBefore(id: int, h: HyperedgeRow, e: Edge, l: nat, r: nat)
    requires l <= |h.participants| && r <= |h.participants|
  {
    && e.sourceId == id && e.kindOrder == 1 && e.confidence == h.confidence
    && exists i: nat, j: nat :: i < |h.participants| && j < |h.participants| && (i < l || (i == l && j < r))
                                && Links(h.participants, i, j, e.from, e.to)
  }

  method HyperedgeCandidates(hyperedges: map<int, HyperedgeRow>, q: Query, filter: Option<set<string>>)
    returns (edges: seq<Edge>)
    ensures forall e :: e in edges <==>
              e.sourceId in hyperedges && EdgeOfHyperedge(q, filter, e.sourceId, hyperedges[e.sourceId], e)
  {
    if !HyperedgesInScope(q.scope, q.walk) { return []; }
    var ids := SortSet(IntLe, hyperedges.Keys);
    forall j | 0 <= j < |ids| ensures ids[j] in hyperedges { var id := ids[j]; assert id in ids; }
    edges := ReadHyperedges(hyperedges, q, filter, ids);
    forall e
      ensures AmongHyperedges(hyperedges, q, filter, ids, |ids|, e) <==>
                e.sourceId in hyperedges && EdgeOfHyperedge(q, filter, e.sourceId, hyperedges[e.sourceId], e)
    {
      AllHyperedgesRead(hyperedges, q, filter, ids, e);
    }
  }

  method OneHyperedge(q: Query, filter: Option<set<string>>, id: int, h: HyperedgeRow) returns (edges: seq<Edge>)
    requires HyperedgesInScope(q.scope, q.walk)
    ensures forall e :: e in edges <==> EdgeOfHyperedge(q, filter, id, h, e)
  {
    edges := [];
    if Filtered(q, filter, h.provenance, h.predicate_, h.confidence) {
      edges := PairCandidates(id, h);
    }
  }

  method ReadHyperedges(hyperedges: map<int, HyperedgeRow>, q: Query, filter: Option<set<string>>, ids: seq<int>)
    returns (edges: seq<Edge>)
    requires HyperedgesInScope(q.scope, q.walk) && forall j :: 0 <= j < |ids| ==> ids[j] in hyperedges
    ensures forall e :: e in edges <==> AmongHyperedges(hyperedges, q, filter, ids, |ids|, e)
  {
    edges := [];
    for k := 0 to |ids|
      invariant forall e :: e in edges <==> AmongHyperedges(hyperedges, q, filter, ids, k, e)
    {
      var more := OneHyperedge(q, filter, ids[k], hyperedges[ids[k]]);
      edges := edges + more;
    }
  }

  /** The edge comes from one of the first `k` hyperedges read. */
  ghost predicate AmongHyperedges(hyperedges: map<int, HyperedgeRow>, q: Query, filter: Option<set<string>>,
                                  ids: seq<int>, k: nat, e: Edge)
    requires k <= |ids| && forall j :: 0 <= j < |ids| ==> ids[j] in hyperedges
  {
    exists j :: 0 <= j < k && EdgeOfHyperedge(q, filter, ids[j], hyperedges[ids[j]], e)
  }

  lemma AllHyperedgesRead(hyperedges: map<int, HyperedgeRow>, q: Query, filter: Option<set<string>>, ids: seq<int>,
                          e: Edge)
    requires (forall j :: 0 <= j < |ids| ==> ids[j] in hyperedges) && forall id :: id in hyperedges ==> id in ids
    ensures AmongHyperedges(hyperedges, q, filter, ids, |ids|, e) <==>
              e.sourceId in hyperedges && EdgeOfHyperedge(q, filter, e.sourceId, hyperedges[e.sourceId], e)
  {
    if e.sourceId in hyperedges && EdgeOfHyperedge(q, filter, e.sourceId, hyperedges[e.sourceId], e) {
      var j :| 0 <= j < |ids| && ids[j] == e.sourceId;
      assert EdgeOfHyperedge(q, filter, ids[j], hyperedges[ids[j]], e);
    }
  }

  predicate KeyLe(a: Edge, b: Edge) {
    || a.sourceId < b.sourceId
    || (a.sourceId == b.sourceId && a.kindOrder < b.kindOrder)
    || (a.sourceId == b.sourceId && a.kindOrder == b.kindOrder && a.from != b.from && StringLe(a.from, b.from))
    || (a.sourceId == b.sourceId && a.kindOrder == b.kindOrder && a.from == b.from && StringLe(a.to, b.to))
  }

  lemma KeyOrder(a: Edge, b: Edge, c: Edge)
    ensures KeyLe(a, b) || KeyLe(b, a)
    ensures KeyLe(a, b) && KeyLe(b, c) ==> KeyLe(a, c)
    ensures KeyLe(a, b) && KeyLe(b, a) ==>
              a.sourceId == b.sourceId && a.kindOrder == b.kindOrder && a.from == b.from && a.to == b.to
  {
    StringsAreOrdered();
  }

  ghost predicate KeySorted(edges: seq<Edge>) {
    forall i, j :: 0 <= i < j < |edges| ==> KeyLe(edges[i], edges[j])
  }

  /** A stable sort by key. */
  function InsertEdge(edges: seq<Edge>, e: Edge): (r: seq<Edge>)
    ensures forall x :: x in r <==> x in edges || x == e
  {
    if edges == [] then [e]
    else if KeyLe(edges[|edges| - 1], e) then edges + [e]
    else InsertEdge(edges[..|edges| - 1], e) + [edges[|edges| - 1]]
  }

  lemma {:induction false} InsertKeepsSorted(edges: seq<Edge>, e: Edge)
    requires KeySorted(edges)
    ensures KeySorted(InsertEdge(edges, e))
  {
    if edges != [] {
      var last, front := edges[|edges| - 1], edges[..|edges| - 1];
      if KeyLe(last, e) {
        forall i | 0 <= i < |edges| ensures KeyLe(edges[i], e) { KeyOrder(edges[i], last, e); }
      } else {
        InsertKeepsSorted(front, e);
        KeyOrder(e, last, last);
        var r := InsertEdge(front, e);
        forall i | 0 <= i < |r| ensures KeyLe(r[i], last) { assert r[i] in r; }
      }
    }
  }

  function SortEdges(edges: seq<Edge>): (r: seq<Edge>)
    ensures forall x :: x in r <==> x in edges
  {
    if edges == [] then []
    else
      assert edges == edges[..|edges| - 1] + [edges[|edges| - 1]];
      InsertEdge(SortEdges(edges[..|edges| - 1]), edges[|edges| - 1])
  }

  lemma {:induction false} SortEdgesSorts(edges: seq<Edge>)
    ensures KeySorted(SortEdges(edges))
  {
    if edges != [] {
      SortEdgesSorts(edges[..|edges| - 1]);
      InsertKeepsSorted(SortEdges(edges[..|edges| - 1]), edges[|edges| - 1]);
    }
  }

  method Candidates(core: ClaimTables, q: Query, filter: Option<set<string>>) returns (edges: seq<Edge>)
    ensures forall e :: e in edges <==> AdmittedEdge(core, q, filter, e)
    ensures KeySorted(edges)
  {
    var claimEdges := ClaimCandidates(core.claims, q, filter);
    var hyperedgeEdges := HyperedgeCandidates(core.hyperedges, q, filter);
    SortEdgesSorts(claimEdges + hyperedgeEdges);
    edges := SortEdges(claimEdges + hyperedgeEdges);
  }

  // ----- routes: paths without reference to positions -----

  /** A walk from `from` to `to` along admitted edges. */
  ghost predicate Route(core: ClaimTables, q: Query, filter: Option<set<string>>, steps: seq<Edge>, to: string)
    decreases |steps|
  {
    if steps == [] then to == q.source
    else
      && AdmittedEdge(core, q, filter, Last(steps)) && Last(steps).to == to
      && Route(core, q, filter, Init(steps), Last(steps).from)
  }

  function StepProduct(steps: seq<Edge>): real
    decreases |steps|
  {
    if steps == [] then 1.0 else StepProduct(Init(steps)) * Last(steps).confidence
  }

  function Stops(source: string, steps: seq<Edge>): seq<string>
    decreases |steps|
  {
    if steps == [] then [source] else Stops(source, Init(steps)) + [Last(steps).to]
  }

  function PathOf(source: string, steps: seq<Edge>): Path {
    Path(steps, StepProduct(steps), Stops(source, steps))
  }

  /** Fewer hops, then the larger product, then the lesser entity path, then the lesser steps. */
  ghost predicate Preferred(a: Path, b: Path) {
    || |a.steps| < |b.steps|
    || (|a.steps| == |b.steps|
        && (|| a.confidence > b.confidence
            || (a.confidence == b.confidence && a.entities != b.entities && LexLe(StringLe, a.entities, b.entities))
            || (a.confidence == b.confidence && a.entities == b.entities && LexLe(KeyLe, a.steps, b.steps))))
  }

  function StepsOf(edges: seq<Edge>, picks: seq<nat>): seq<Edge>
    requires forall i :: 0 <= i < |picks| ==> picks[i] < |edges|
  {
    seq(|picks|, i requires 0 <= i < |picks| => edges[picks[i]])
  }

  lemma {:induction false} ChainPicksExist(edges: seq<Edge>, source: string, picks: seq<nat>)
    requires Chain(edges, source, picks)
    ensures forall i :: 0 <= i < |picks| ==> picks[i] < |edges|
    decreases |picks|
  {
    if picks != [] {
      ChainPicksExist(edges, source, Init(picks));
      assert forall i :: 0 <= i < |picks| - 1 ==> Init(picks)[i] == picks[i];
    }
  }

  /** A chain of positions is a route, with the same product and entities. */
  lemma {:induction false} ChainIsRoute(core: ClaimTables, q: Query, filter: Option<set<string>>,
                                        edges: seq<Edge>, picks: seq<nat>)
    requires forall e :: e in edges ==> AdmittedEdge(core, q, filter, e)
    requires Chain(edges, q.source, picks) && forall i :: 0 <= i < |picks| ==> picks[i] < |edges|
    ensures Route(core, q, filter, StepsOf(edges, picks), End(edges, q.source, picks))
    ensures PathOf(q.source, StepsOf(edges, picks)).entities == Visits(edges, q.source, picks)
    ensures PathOf(q.source, StepsOf(edges, picks)).confidence == Product(edges, picks)
    decreases |picks|
  {
    if picks != [] {
      ChainIsRoute(core, q, filter, edges, Init(picks));
      assert Init(StepsOf(edges, picks)) == StepsOf(edges, Init(picks));
      assert Last(StepsOf(edges, picks)) == edges[Last(picks)];
    }
  }

  /** The first place where each step stands among the edges. */
  function FirstPlace(edges: seq<Edge>, e: Edge): (i: nat)
    requires e in edges
    ensures i < |edges| && edges[i] == e && forall j :: 0 <= j < i ==> edges[j] != e
  {
    if edges[0] == e then 0 else 1 + FirstPlace(edges[1..], e)
  }

  function FirstPlaces(edges: seq<Edge>, steps: seq<Edge>): (picks: seq<nat>)
    requires forall e :: e in steps ==> e in edges
    ensures |picks| == |steps|
    ensures forall i :: 0 <= i < |picks| ==> picks[i] == FirstPlace(edges, steps[i])
  {
    seq(|steps|, i requires 0 <= i < |steps| => FirstPlace(edges, steps[i]))
  }

  lemma {:induction false} RouteIsChain(core: ClaimTables, q: Query, filter: Option<set<string>>,
                                        edges: seq<Edge>, steps: seq<Edge>, to: string)
    requires forall e :: e in edges <==> AdmittedEdge(core, q, filter, e)
    requires Route(core, q, filter, steps, to)
    ensures forall e :: e in steps ==> e in edges
    ensures Joins(edges, q.source, to, FirstPlaces(edges, steps))
    ensures StepsOf(edges, FirstPlaces(edges, steps)) == steps
    decreases |steps|
  {
    if steps != [] {
      RouteIsChain(core, q, filter, edges, Init(steps), Last(steps).from);
      assert steps == Init(steps) + [Last(steps)];
      PlacesJoin(edges, q.source, Init(steps), Last(steps));
    }
  }

  lemma PlacesJoin(edges: seq<Edge>, source: string, steps: seq<Edge>, last: Edge)
    requires (forall e :: e in steps ==> e in edges) && last in edges
    requires Joins(edges, source, last.from, FirstPlaces(edges, steps))
    requires StepsOf(edges, FirstPlaces(edges, steps)) == steps
    ensures forall e :: e in steps + [last] ==> e in edges
    ensures Joins(edges, source, last.to, FirstPlaces(edges, steps + [last]))
    ensures StepsOf(edges, FirstPlaces(edges, steps + [last])) == steps + [last]
  {
    var before, picks := FirstPlaces(edges, steps), FirstPlaces(edges, steps + [last]);
    assert picks == before + [FirstPlace(edges, last)];
    assert Init(picks) == before;
  }

  /** A record yields one confidence, so an admitted edge is known by its key. */
  lemma KeyTellsEdge(core: ClaimTables, q: Query, filter: Option<set<string>>, a: Edge, b: Edge)
    requires AdmittedEdge(core, q, filter, a) && AdmittedEdge(core, q, filter, b)
    requires KeyLe(a, b) && KeyLe(b, a)
    ensures a == b
  {
    KeyOrder(a, b, b);
  }

  /** Picks no later than the first places of a route's steps give steps no greater than the route's. */
  lemma {:induction false} PicksOrderSteps(core: ClaimTables, q: Query, filter: Option<set<string>>,
                                           edges: seq<Edge>, picks: seq<nat>, steps: seq<Edge>)
    requires KeySorted(edges) && forall e :: e in edges <==> AdmittedEdge(core, q, filter, e)
    requires forall e :: e in steps ==> e in edges
    requires |picks| == |steps| && forall i :: 0 <= i < |picks| ==> picks[i] < |edges|
    requires LexLe(NatLe, picks, FirstPlaces(edges, steps))
    ensures LexLe(KeyLe, StepsOf(edges, picks), steps)
  {
    if steps != [] {
      var first := FirstPlace(edges, steps[0]);
      assert FirstPlaces(edges, steps)[0] == first;
      assert FirstPlaces(edges, steps)[1..] == FirstPlaces(edges, steps[1..]);
      assert StepsOf(edges, picks)[1..] == StepsOf(edges, picks[1..]);
      if picks[0] == first {
        PicksOrderSteps(core, q, filter, edges, picks[1..], steps[1..]);
      } else {
        assert picks[0] < first && edges[picks[0]] != steps[0] && KeyLe(edges[picks[0]], edges[first]);
      }
    }
  }

  lemma {:induction false} SameSteps(core: ClaimTables, q: Query, filter: Option<set<string>>, a: seq<Edge>,
                                     b: seq<Edge>)
    requires |a| == |b| && LexLe(KeyLe, a, b) && LexLe(KeyLe, b, a)
    requires forall e :: e in a || e in b ==> AdmittedEdge(core, q, filter, e)
    ensures a == b
  {
    if a != [] {
      if a[0] != b[0] { KeyTellsEdge(core, q, filter, a[0], b[0]); }
      SameSteps(core, q, filter, a[1..], b[1..]);
      assert a == [a[0]] + a[1..] && b == [b[0]] + b[1..];
    }
  }

  lemma {:induction false} RouteStepsAdmitted(core: ClaimTables, q: Query, filter: Option<set<string>>,
                                              steps: seq<Edge>, to: string)
    requires Route(core, q, filter, steps, to)
    ensures forall e :: e in steps ==> AdmittedEdge(core, q, filter, e)
    decreases |steps|
  {
    if steps != [] {
      RouteStepsAdmitted(core, q, filter, Init(steps), Last(steps).from);
      assert steps == Init(steps) + [Last(steps)];
    }
  }

  /** The order leaves no ties: the optimum is one path. */
  lemma OptimumIsUnique(core: ClaimTables, q: Query, filter: Option<set<string>>, a: seq<Edge>, b: seq<Edge>,
                        to: string)
    requires Route(core, q, filter, a, to) && Route(core, q, filter, b, to)
    requires Preferred(PathOf(q.source, a), PathOf(q.source, b)) && Preferred(PathOf(q.source, b), PathOf(q.source, a))
    ensures a == b
  {
    StringsAreOrdered();
    RouteStepsAdmitted(core, q, filter, a, to);
    RouteStepsAdmitted(core, q, filter, b, to);
    if Stops(q.source, a) != Stops(q.source, b) {
      LexAntisymmetric(StringLe, Stops(q.source, a), Stops(q.source, b));
    } else {
      SameSteps(core, q, filter, a, b);
    }
  }

  // ----- graph_path -----

  /** The answer to a well-formed query between two different entities. */
  ghost predicate Answers(core: ClaimTables, q: Query, filter: Option<set<string>>, answer: Option<Path>) {
    && (answer.None? <==> forall steps :: Route(core, q, filter, steps, q.target) ==> |steps| > q.maxHops)
    && (answer.Some? ==>
          && answer.value == PathOf(q.source, answer.value.steps) && |answer.value.steps| <= q.maxHops
          && Route(core, q, filter, answer.value.steps, q.target)
          && forall steps :: Route(core, q, filter, steps, q.target) ==>
               Preferred(answer.value, PathOf(q.source, steps)))
  }

  function FoundPath(edges: seq<Edge>, best: Option<Trail>): Option<Path>
    requires best.Some? ==> forall i :: 0 <= i < |best.value.picks| ==> best.value.picks[i] < |edges|
  {
    if best.None? then None
    else Some(Path(StepsOf(edges, best.value.picks), best.value.confidence, best.value.entities))
  }

  lemma SearchAnswers(core: ClaimTables, q: Query, filter: Option<set<string>>, edges: seq<Edge>, best: Option<Trail>)
    requires q.source != q.target && Settled(edges, q.source, q.target, q.maxHops, best)
    requires KeySorted(edges) && forall e :: e in edges <==> AdmittedEdge(core, q, filter, e)
    ensures best.Some? ==> forall i :: 0 <= i < |best.value.picks| ==> best.value.picks[i] < |edges|
    ensures Answers(core, q, filter, FoundPath(edges, best))
  {
    SettledIsOptimal(edges, q.source, q.target, q.maxHops, best);
    if best.Some? {
      ChainPicksExist(edges, q.source, best.value.picks);
      ChainIsRoute(core, q, filter, edges, best.value.picks);
    }
    forall steps | Route(core, q, filter, steps, q.target)
      ensures if best.None? then |steps| > q.maxHops
              else Preferred(FoundPath(edges, best).value, PathOf(q.source, steps))
    {
      NoRouteIsBetter(core, q, filter, edges, best, steps);
    }
  }

  lemma NoRouteIsBetter(core: ClaimTables, q: Query, filter: Option<set<string>>, edges: seq<Edge>, best: Option<Trail>,
                        steps: seq<Edge>)
    requires q.source != q.target && Settled(edges, q.source, q.target, q.maxHops, best)
    requires KeySorted(edges) && forall e :: e in edges <==> AdmittedEdge(core, q, filter, e)
    requires best.Some? ==> forall i :: 0 <= i < |best.value.picks| ==> best.value.picks[i] < |edges|
    requires Route(core, q, filter, steps, q.target)
    ensures if best.None? then |steps| > q.maxHops
            else Preferred(FoundPath(edges, best).value, PathOf(q.source, steps))
  {
    SettledIsOptimal(edges, q.source, q.target, q.maxHops, best);
    if best.Some? { ChainIsRoute(core, q, filter, edges, best.value.picks); }
    RouteIsChain(core, q, filter, edges, steps, q.target);
    var picks := FirstPlaces(edges, steps);
    ChainIsRoute(core, q, filter, edges, picks);
    if best.Some? && LexLe(NatLe, best.value.picks, picks) && |best.value.picks| == |picks| {
      PicksOrderSteps(core, q, filter, edges, best.value.picks, steps);
    }
  }

  /** A step as the caller sees it: a claim keeps its own direction even where it is walked backwards. */
  datatype PathStep = PathStep(
    source: string, target: string, predicate_: string, confidence: real, provenance: Provenance,
    claimId: Option<int>, sourceRefs: seq<string>, scope: string)

  predicate Recorded(core: ClaimTables, e: Edge) {
    if e.kindOrder == 0 then e.sourceId in core.claims else e.sourceId in core.hyperedges
  }

  function StepOf(core: ClaimTables, e: Edge): PathStep
    requires Recorded(core, e)
  {
    if e.kindOrder == 0 then
      var c := core.claims[e.sourceId];
      PathStep(c.subject, c.object_, c.predicate_, c.confidence, c.provenance, Some(e.sourceId), c.sourceRefs, c.scope)
    else
      var h := core.hyperedges[e.sourceId];
      PathStep(e.from, e.to, h.predicate_, h.confidence, h.provenance, None, h.sourceRefs, "global")
  }

  /** The steps reported for a path are those of its edges' records: admitted by the query, with the edge's
      confidence, and leading between the edge's ends in one direction or the other. */
  ghost predicate Reports(core: ClaimTables, q: Query, filter: Option<set<string>>, edges: seq<Edge>,
                          steps: seq<PathStep>) {
    && |steps| == |edges|
    && forall i :: 0 <= i < |edges| ==>
         && Recorded(core, edges[i]) && steps[i] == StepOf(core, edges[i])
         && Filtered(q, filter, steps[i].provenance, steps[i].predicate_, steps[i].confidence)
         && steps[i].confidence == edges[i].confidence
         && ((steps[i].source == edges[i].from && steps[i].target == edges[i].to)
             || (q.bidirectional && steps[i].source == edges[i].to && steps[i].target == edges[i].from))
  }

  method ReportSteps(core: ClaimTables, ghost q: Query, ghost filter: Option<set<string>>, edges: seq<Edge>)
    returns (steps: seq<PathStep>)
    requires forall e :: e in edges ==> AdmittedEdge(core, q, filter, e)
    ensures Reports(core, q, filter, edges, steps)
  {
    steps := [];
    for i := 0 to |edges|
      invariant Reports(core, q, filter, edges[..i], steps)
    {
      var e := edges[i];
      assert e in edges && edges[..i + 1] == edges[..i] + [e];
      steps := steps + [StepOf(core, e)];
    }
    assert edges[..|edges|] == edges;
  }

  // ----- the answer in terms of the rows -----

  /** A confidence, a provenance and a predicate the query asks for. */
  ghost predicate Wanted(core: ClaimTables, q: Query, confidence: real, provenance: Provenance, predicate_: string)
    requires core.vocabulary.Valid()
  {
    && q.minConfidence <= confidence
    && (q.provenances.Some? ==> provenance in q.provenances.value)
    && (q.predicates.Some? ==>
          exists k :: 0 <= k < |q.predicates.value| && Lets(core.vocabulary, q.predicates.value[k], predicate_))
  }

  /** An ACTIVE claim in scope that the query asks for and may walk from `from` to `to`. */
  ghost predicate ClaimLeads(core: ClaimTables, q: Query, id: int, from: string, to: string)
    requires core.vocabulary.Valid()
  {
    && id in core.claims
    && var c := core.claims[id];
       && c.status == Active && Admits(q.scope, q.walk, c.scope)
       && Wanted(core, q, c.confidence, c.provenance, c.predicate_)
       && ((c.subject == from && c.object_ == to) || (q.bidirectional && c.subject == to && c.object_ == from))
  }

  /** Likewise a hyperedge, from one participant to another; it counts as a row scoped "global". */
  ghost predicate HyperedgeLeads(core: ClaimTables, q: Query, id: int, from: string, to: string)
    requires core.vocabulary.Valid()
  {
    && from != to && id in core.hyperedges
    && var h := core.hyperedges[id];
       && Admits(q.scope, q.walk, "global") && Wanted(core, q, h.confidence, h.provenance, h.predicate_)
       && (exists l :: 0 <= l < |h.participants| && h.participants[l].entity == from)
       && (exists r :: 0 <= r < |h.participants| && h.participants[r].entity == to)
  }

  /** A step tells of a row that leads there, column by column. */
  ghost predicate Tells(core: ClaimTables, q: Query, step: PathStep, from: string, to: string)
    requires core.vocabulary.Valid()
  {
    if step.claimId.Some? then
      var id := step.claimId.value;
      && ClaimLeads(core, q, id, from, to)
      && step.source == core.claims[id].subject && step.target == core.claims[id].object_
      && step.predicate_ == core.claims[id].predicate_ && step.confidence == core.claims[id].confidence
      && step.provenance == core.claims[id].provenance && step.sourceRefs == core.claims[id].sourceRefs
      && step.scope == core.claims[id].scope
    else
      && step.source == from && step.target == to && step.scope == "global"
      && exists id :: HyperedgeLeads(core, q, id, from, to) && HyperedgeTold(core.hyperedges[id], step)
  }

  ghost predicate HyperedgeTold(h: HyperedgeRow, step: PathStep) {
    && step.predicate_ == h.predicate_ && step.confidence == h.confidence
    && step.provenance == h.provenance && step.sourceRefs == h.sourceRefs
  }

  /** What is said to a caller: one step for each pair of neighbours on the way from the source to the target,
      each told from its row, and each with the confidence, provenance and predicate asked for. */
  ghost predicate Told(core: ClaimTables, q: Query, path: Path, steps: seq<PathStep>)
    requires core.vocabulary.Valid()
  {
    && |steps| <= q.maxHops && |path.entities| == |steps| + 1
    && path.entities[0] == q.source && path.entities[|steps|] == q.target
    && forall i :: 0 <= i < |steps| ==>
         && Tells(core, q, steps[i], path.entities[i], path.entities[i + 1])
         && Wanted(core, q, steps[i].confidence, steps[i].provenance, steps[i].predicate_)
  }

  lemma EdgeTold(core: ClaimTables, q: Query, filter: Option<set<string>>, e: Edge)
    requires core.vocabulary.Valid() && FilterOf(core.vocabulary, q.predicates, filter)
    requires AdmittedEdge(core, q, filter, e)
    ensures Recorded(core, e) && Tells(core, q, StepOf(core, e), e.from, e.to)
    ensures Wanted(core, q, StepOf(core, e).confidence, StepOf(core, e).provenance, StepOf(core, e).predicate_)
  {
    HyperedgesAreGlobalRows(q.scope, q.walk);
    if e.kindOrder != 0 {
      var h := core.hyperedges[e.sourceId];
      var l: nat, r: nat :| l < |h.participants| && r < |h.participants| && Links(h.participants, l, r, e.from, e.to);
      assert HyperedgeLeads(core, q, e.sourceId, e.from, e.to) && HyperedgeTold(h, StepOf(core, e));
    }
  }

  lemma {:induction false} StopsAlong(core: ClaimTables, q: Query, filter: Option<set<string>>, steps: seq<Edge>,
                                      to: string)
    requires Route(core, q, filter, steps, to)
    ensures var stops := Stops(q.source, steps);
            && |stops| == |steps| + 1 && stops[0] == q.source && stops[|steps|] == to
            && forall i :: 0 <= i < |steps| ==> stops[i] == steps[i].from && stops[i + 1] == steps[i].to
    decreases |steps|
  {
    if steps != [] { StopsAlong(core, q, filter, Init(steps), Last(steps).from); }
  }

  lemma ReportedAreTold(core: ClaimTables, q: Query, filter: Option<set<string>>, path: Path, steps: seq<PathStep>)
    requires core.vocabulary.Valid() && FilterOf(core.vocabulary, q.predicates, filter)
    requires Answers(core, q, filter, Some(path)) && Reports(core, q, filter, path.steps, steps)
    ensures Told(core, q, path, steps)
  {
    StopsAlong(core, q, filter, path.steps, q.target);
    RouteStepsAdmitted(core, q, filter, path.steps, q.target);
    forall i | 0 <= i < |steps|
      ensures Tells(core, q, steps[i], path.entities[i], path.entities[i + 1])
      ensures Wanted(core, q, steps[i].confidence, steps[i].provenance, steps[i].predicate_)
    {
      assert path.steps[i] in path.steps;
      EdgeTold(core, q, filter, path.steps[i]);
    }
  }

  /** One row leads from the source to the target. */
  ghost predicate DirectClaim(core: ClaimTables, q: Query, id: int)
    requires core.vocabulary.Valid()
  {
    ClaimLeads(core, q, id, q.source, q.target)
  }

  ghost predicate DirectHyperedge(core: ClaimTables, q: Query, id: int)
    requires core.vocabulary.Valid()
  {
    HyperedgeLeads(core, q, id, q.source, q.target)
  }

  /** One step is the answer, at least as confident as this row; among equals the lower id is told, and a claim
      before a hyperedge. */
  ghost predicate OneStepNoWorse(answer: Option<Path>, id: int, kindOrder: nat, confidence: real) {
    && answer.Some? && |answer.value.steps| == 1 && answer.value.confidence == answer.value.steps[0].confidence
    && confidence <= answer.value.confidence
    && (confidence == answer.value.confidence ==>
          || answer.value.steps[0].sourceId < id
          || (answer.value.steps[0].sourceId == id && answer.value.steps[0].kindOrder <= kindOrder))
  }

  lemma DirectEdgeAnswers(core: ClaimTables, q: Query, filter: Option<set<string>>, answer: Option<Path>, e: Edge)
    requires q.source != q.target && q.maxHops > 0 && Answers(core, q, filter, answer)
    requires AdmittedEdge(core, q, filter, e) && e.from == q.source && e.to == q.target
    ensures OneStepNoWorse(answer, e.sourceId, e.kindOrder, e.confidence)
  {
    var direct := [e];
    assert Init(direct) == [] && Last(direct) == e;
    assert Route(core, q, filter, direct, q.target);
    assert StepProduct(direct) == e.confidence && Stops(q.source, direct) == [q.source, q.target];
    assert answer.Some?;
    var steps := answer.value.steps;
    assert |steps| == 1;
    assert Init(steps) == [] && Last(steps).to == q.target;
    assert StepProduct(steps) == steps[0].confidence && Stops(q.source, steps) == [q.source, q.target];
  }

  lemma DirectClaimAnswers(core: ClaimTables, q: Query, filter: Option<set<string>>, answer: Option<Path>, id: int)
    requires core.vocabulary.Valid() && FilterOf(core.vocabulary, q.predicates, filter)
    requires q.source != q.target && q.maxHops > 0 && Answers(core, q, filter, answer)
    requires DirectClaim(core, q, id)
    ensures OneStepNoWorse(answer, id, 0, core.claims[id].confidence)
  {
    DirectEdgeAnswers(core, q, filter, answer, Edge(q.source, q.target, id, 0, core.claims[id].confidence));
  }

  lemma DirectHyperedgeAnswers(core: ClaimTables, q: Query, filter: Option<set<string>>, answer: Option<Path>, id: int)
    requires core.vocabulary.Valid() && FilterOf(core.vocabulary, q.predicates, filter)
    requires q.source != q.target && q.maxHops > 0 && Answers(core, q, filter, answer)
    requires DirectHyperedge(core, q, id)
    ensures OneStepNoWorse(answer, id, 1, core.hyperedges[id].confidence)
  {
    HyperedgesAreGlobalRows(q.scope, q.walk);
    var h := core.hyperedges[id];
    var l :| 0 <= l < |h.participants| && h.participants[l].entity == q.source;
    var r :| 0 <= r < |h.participants| && h.participants[r].entity == q.target;
    assert Links(h.participants, l, r, q.source, q.target);
    assert EdgeOfHyperedge(q, filter, id, h, Edge(q.source, q.target, id, 1, h.confidence));
    DirectEdgeAnswers(core, q, filter, answer, Edge(q.source, q.target, id, 1, h.confidence));
  }

  /** The answer has no more steps than any route to the target; among those of its length none is more confident,
      and among those of its confidence none has a lesser list of entities. */
  lemma AnswerIsBest(core: ClaimTables, q: Query, filter: Option<set<string>>, answer: Option<Path>, steps: seq<Edge>)
    requires q.source != q.target && Answers(core, q, filter, answer) && answer.Some?
    requires Route(core, q, filter, steps, q.target)
    ensures |answer.value.steps| <= |steps|
    ensures |answer.value.steps| == |steps| ==>
              && StepProduct(steps) <= answer.value.confidence
              && (StepProduct(steps) == answer.value.confidence ==>
                    LexLe(StringLe, answer.value.entities, Stops(q.source, steps)))
  {
    StringsAreOrdered();
    LexReflexive(StringLe, answer.value.entities);
  }

  /** The first check a refused query fails. */
  function RefusalOf(q: Query): QueryError {
    if Blank(q.source) || Blank(q.target) then InvalidGraphEntity
    else if !ValidScope(q.scope) then InvalidScope
    else if !Projection.Within(q.minConfidence) then InvalidConfidence
    else InvalidPredicateFilter
  }

  method FindPath(core: ClaimTables, q: Query) returns (r: Result<Option<Path>, QueryError>, steps: seq<PathStep>)
    requires core.vocabulary.Valid()
    ensures r.Err? ==> r.error == RefusalOf(q)
    ensures r.Err? <==>
              || Blank(q.source) || Blank(q.target) || !ValidScope(q.scope) || !Projection.Within(q.minConfidence)
              || (q.source != q.target && q.maxHops > 0 && q.predicates.Some?
                  && (q.predicates.value == [] || exists name :: name in q.predicates.value && Blank(name)))
    ensures r.Ok? && q.source == q.target ==> r.value == Some(PathOf(q.source, []))
    ensures r.Ok? && q.source != q.target && q.maxHops == 0 ==> forall filter :: Answers(core, q, filter, r.value)
    ensures r.Ok? && q.source != q.target && q.maxHops > 0 ==>
              exists filter :: FilterOf(core.vocabulary, q.predicates, filter) && Answers(core, q, filter, r.value)
                               && (r.value.Some? ==> Reports(core, q, filter, r.value.value.steps, steps))
    ensures r.Ok? && q.source != q.target && r.value.Some? ==> Told(core, q, r.value.value, steps)
    ensures r.Ok? && q.source != q.target && q.maxHops > 0 ==>
              forall id :: DirectClaim(core, q, id) ==> OneStepNoWorse(r.value, id, 0, core.claims[id].confidence)
    ensures r.Ok? && q.source != q.target && q.maxHops > 0 ==>
              forall id :: DirectHyperedge(core, q, id) ==>
                OneStepNoWorse(r.value, id, 1, core.hyperedges[id].confidence)
  {
    steps := [];
    if Blank(q.source) || Blank(q.target) { return Err(InvalidGraphEntity), []; }
    if !ValidScope(q.scope) { return Err(InvalidScope), []; }
    if !Projection.Within(q.minConfidence) { return Err(InvalidConfidence), []; }
    if q.source == q.target { return Ok(Some(PathOf(q.source, []))), []; }
    if q.maxHops == 0 {
      assert forall filter :: Answers(core, q, filter, None);
      return Ok(None), [];
    }
    BadFilterSays(q.predicates);
    if BadFilter(q.predicates) { return Err(InvalidPredicateFilter), []; }
    var filter := FilterFor(core.vocabulary, q.predicates);
    var edges := Candidates(core, q, filter);
    var best := Search(edges, q.source, q.target, q.maxHops);
    SearchAnswers(core, q, filter, edges, best);
    var found := FoundPath(edges, best);
    r := Ok(found);
    if found.Some? {
      RouteStepsAdmitted(core, q, filter, found.value.steps, q.target);
      steps := ReportSteps(core, q, filter, found.value.steps);
      ReportedAreTold(core, q, filter, found.value, steps);
    }
    forall id | DirectClaim(core, q, id) ensures OneStepNoWorse(found, id, 0, core.claims[id].confidence) {
      DirectClaimAnswers(core, q, filter, found, id);
    }
    forall id | DirectHyperedge(core, q, id) ensures OneStepNoWorse(found, id, 1, core.hyperedges[id].confidence) {
      DirectHyperedgeAnswers(core, q, filter, found, id);
    }
  }
}
