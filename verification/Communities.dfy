/** Communities (crates/aver-core/src/graph.rs, detect_communities_with_scope): summed and clipped
    edge weights, and the components of the strong edges. */
module Communities {
  import opened Prelude
  import opened Records
  import opened Projection
  import opened ScopeWalk
  import opened Writers

  // ----- weights -----

  function ProvenanceWeight(p: Provenance): real {
    match p
    case UserAsserted => 1.0
    case Extracted => 0.95
    case Inferred => 0.65
    case Ambiguous => 0.35
  }

  function Share(confidence: real, provenance: Provenance): real { confidence * ProvenanceWeight(provenance) }

  /** What one claim, or one pair of participants, adds between two entities. */
  datatype Part = Part(left: string, right: string, weight: real)

  type Pair = (string, string)

  function Key(a: string, b: string): Pair {
    if a != b && StringLe(a, b) then (a, b) else (b, a)
  }

  lemma KeysMatch(a: string, b: string, c: string, d: string)
    ensures Key(a, b) == Key(b, a)
    ensures Key(a, b) == Key(c, d) <==> (a == c && b == d) || (a == d && b == c)
  {
    StringsAreOrdered();
  }

  function ClaimParts(claims: map<int, ClaimRow>, ids: seq<int>): seq<Part>
    requires forall k :: 0 <= k < |ids| ==> ids[k] in claims
    decreases |ids|
  {
    if ids == [] then []
    else
      var c := claims[ids[|ids| - 1]];
      ClaimParts(claims, ids[..|ids| - 1])
      + [Part(c.subject, c.object_, Share(c.confidence, c.provenance))]
  }

  /** The pairs of one participant with those after it, from position `r`. */
  function PairsFrom(participants: seq<Participant>, weight: real, l: nat, r: nat): seq<Part>
    requires l < |participants|
    decreases |participants| - r
  {
    if r >= |participants| then []
    else [Part(participants[l].entity, participants[r].entity, weight)] + PairsFrom(participants, weight, l, r + 1)
  }

  function PairParts(participants: seq<Participant>, weight: real, l: nat): seq<Part>
    decreases |participants| - l
  {
    if l >= |participants| then []
    else PairsFrom(participants, weight, l, l + 1) + PairParts(participants, weight, l + 1)
  }

  function HyperedgeParts(hyperedges: map<int, HyperedgeRow>, ids: seq<int>): seq<Part>
    requires forall k :: 0 <= k < |ids| ==> ids[k] in hyperedges
    decreases |ids|
  {
    if ids == [] then []
    else
      var h := hyperedges[ids[|ids| - 1]];
      HyperedgeParts(hyperedges, ids[..|ids| - 1])
      + PairParts(h.participants, Share(h.confidence, h.provenance), 0)
  }

  /** The summed weight between two entities. */
  ghost function Total(parts: seq<Part>, key: Pair): real
    decreases |parts|
  {
    if parts == [] then 0.0
    else
      var p := parts[|parts| - 1];
      Total(parts[..|parts| - 1], key) + if p.left != p.right && Key(p.left, p.right) == key then p.weight else 0.0
  }

  ghost predicate Paired(parts: seq<Part>, key: Pair) {
    exists i :: 0 <= i < |parts| && parts[i].left != parts[i].right && Key(parts[i].left, parts[i].right) == key
  }

  /** add_weight. */
  function AddWeight(weights: map<Pair, real>, p: Part): map<Pair, real> {
    if p.left == p.right then weights
    else
      var key := Key(p.left, p.right);
      weights[key := (if key in weights then weights[key] else 0.0) + p.weight]
  }

  ghost predicate Weighs(parts: seq<Part>, weights: map<Pair, real>) {
    && (forall key :: key in weights <==> Paired(parts, key))
    && (forall key :: key in weights ==> weights[key] == Total(parts, key))
  }

  lemma {:induction false} UnpairedIsZero(parts: seq<Part>, key: Pair)
    ensures Paired(parts, key) || Total(parts, key) == 0.0
    decreases |parts|
  {
    if parts != [] {
      var front := parts[..|parts| - 1];
      UnpairedIsZero(front, key);
      if Paired(front, key) {
        var i :| 0 <= i < |front| && front[i].left != front[i].right && Key(front[i].left, front[i].right) == key;
        assert parts[i] == front[i];
      }
    }
  }

  lemma AddWeightWeighs(parts: seq<Part>, weights: map<Pair, real>, p: Part)
    requires Weighs(parts, weights)
    ensures Weighs(parts + [p], AddWeight(weights, p))
  {
    var longer := parts + [p];
    assert longer[..|longer| - 1] == parts;
    forall key
      ensures Paired(longer, key) <==> Paired(parts, key) || (p.left != p.right && Key(p.left, p.right) == key)
      ensures key !in weights ==> Total(parts, key) == 0.0
    {
      UnpairedIsZero(parts, key);
      assert longer[|parts|] == p;
      assert forall i :: 0 <= i < |parts| ==> longer[i] == parts[i];
    }
  }

  method SumWeights(parts: seq<Part>) returns (weights: map<Pair, real>)
    ensures Weighs(parts, weights)
  {
    weights := map[];
    for k := 0 to |parts|
      invariant Weighs(parts[..k], weights)
    {
      AddWeightWeighs(parts[..k], weights, parts[k]);
      assert parts[..k + 1] == parts[..k] + [parts[k]];
      weights := AddWeight(weights, parts[k]);
    }
    assert parts[..|parts|] == parts;
  }

  // ----- strong edges and the chains they form -----

  function Clip(w: real): real { if w < 1.0 then w else 1.0 }

  const StrongThreshold := 0.5

  predicate Strong(weights: map<Pair, real>, a: string, b: string) {
    a != b && Key(a, b) in weights && Clip(weights[Key(a, b)]) >= StrongThreshold
  }

  ghost predicate StrongPath(weights: map<Pair, real>, path: seq<string>) {
    forall i :: 0 <= i < |path| - 1 ==> Strong(weights, path[i], path[i + 1])
  }

  /** A chain of strong edges joins the two. */
  ghost predicate Connected(weights: map<Pair, real>, a: string, b: string) {
    exists path: seq<string> :: Leads(weights, path, a, b)
  }

  ghost predicate Leads(weights: map<Pair, real>, path: seq<string>, a: string, b: string) {
    path != [] && StrongPath(weights, path) && path[0] == a && path[|path| - 1] == b
  }

  function Reversed(path: seq<string>): (r: seq<string>)
    ensures |r| == |path| && forall i :: 0 <= i < |path| ==> r[i] == path[|path| - 1 - i]
  {
    seq(|path|, i requires 0 <= i < |path| => path[|path| - 1 - i])
  }

  lemma ConnectedIsEquivalence(weights: map<Pair, real>, a: string, b: string, c: string)
    ensures Connected(weights, a, a)
    ensures Connected(weights, a, b) ==> Connected(weights, b, a)
    ensures Connected(weights, a, b) && Connected(weights, b, c) ==> Connected(weights, a, c)
  {
    assert Leads(weights, [a], a, a);
    if Connected(weights, a, b) {
      var p :| Leads(weights, p, a, b);
      LeadsBack(weights, p, a, b);
      if Connected(weights, b, c) {
        var q :| Leads(weights, q, b, c);
        LeadsOn(weights, p, q, a, b, c);
      }
    }
  }

  lemma LeadsBack(weights: map<Pair, real>, p: seq<string>, a: string, b: string)
    requires Leads(weights, p, a, b)
    ensures Leads(weights, Reversed(p), b, a)
  {
    var r := Reversed(p);
    forall i | 0 <= i < |r| - 1 ensures Strong(weights, r[i], r[i + 1]) {
      var j := |p| - 2 - i;
      assert Strong(weights, p[j], p[j + 1]);
      KeysMatch(p[j], p[j + 1], p[j], p[j + 1]);
    }
  }

  lemma LeadsOn(weights: map<Pair, real>, p: seq<string>, q: seq<string>, a: string, b: string, c: string)
    requires Leads(weights, p, a, b) && Leads(weights, q, b, c)
    ensures Leads(weights, p + q[1..], a, c)
  {
    var r := p + q[1..];
    forall i | 0 <= i < |r| - 1 ensures Strong(weights, r[i], r[i + 1]) {
      if i < |p| - 1 {
        assert Strong(weights, p[i], p[i + 1]);
      } else {
        var j := i - (|p| - 1);
        assert Strong(weights, q[j], q[j + 1]);
      }
    }
  }

  ghost predicate Closed(weights: map<Pair, real>, s: set<string>) {
    forall x, y :: x in s && Strong(weights, x, y) ==> y in s
  }

  lemma {:induction false} ClosedKeepsChains(weights: map<Pair, real>, s: set<string>, path: seq<string>, a: string,
                                             b: string)
    requires Closed(weights, s) && a in s && Leads(weights, path, a, b)
    ensures b in s
    decreases |path|
  {
    if |path| > 1 {
      assert Strong(weights, path[0], path[1]);
      var rest := path[1..];
      forall i | 0 <= i < |rest| - 1 ensures Strong(weights, rest[i], rest[i + 1]) {
        var j := i + 1;
        assert Strong(weights, path[j], path[j + 1]);
      }
      ClosedKeepsChains(weights, s, path[1..], path[1], b);
    }
  }

  /** A closed set holds whole components or none of them. */
  lemma ClosedIsWhole(weights: map<Pair, real>, s: set<string>, a: string, b: string)
    requires Closed(weights, s) && Connected(weights, a, b)
    ensures a in s <==> b in s
  {
    ConnectedIsEquivalence(weights, a, b, a);
    var p :| Leads(weights, p, a, b);
    var q :| Leads(weights, q, b, a);
    if a in s { ClosedKeepsChains(weights, s, p, a, b); }
    if b in s { ClosedKeepsChains(weights, s, q, b, a); }
  }

  // ----- one component, breadth first -----

  /** Each node's neighbours over strong edges. */
  ghost predicate Lists(adjacency: map<string, seq<string>>, weights: map<Pair, real>) {
    forall x :: x in adjacency ==>
      forall y :: y in adjacency[x] <==> Strong(weights, x, y) && y in adjacency
  }

  ghost predicate EndsAmong(weights: map<Pair, real>, nodes: set<string>) {
    forall key :: key in weights ==> key.0 in nodes && key.1 in nodes && Key(key.0, key.1) == key && key.0 != key.1
  }

  ghost function Elements(s: seq<string>): set<string> { set x | x in s }

  /** The entities met so far: `old` ones, then those of this component, each once. */
  ghost predicate Met(weights: map<Pair, real>, start: string, before: set<string>, met: seq<string>,
                      seen: set<string>) {
    && Distinct(met) && seen == before + Elements(met)
    && (forall i :: 0 <= i < |met| ==> met[i] !in before && Connected(weights, start, met[i]))
  }

  method Discover(neighbours: seq<string>, ghost weights: map<Pair, real>, ghost start: string, ghost current: string,
                  ghost before: set<string>, ghost met: seq<string>, seen: set<string>, queue: seq<string>)
    returns (newSeen: set<string>, newQueue: seq<string>)
    requires Met(weights, start, before, met + queue, seen) && Closed(weights, before)
    requires current !in before && Connected(weights, start, current)
    requires forall y :: y in neighbours ==> Strong(weights, current, y)
    ensures Met(weights, start, before, met + newQueue, newSeen)
    ensures newSeen == seen + Elements(neighbours)
    ensures queue <= newQueue && (newSeen == seen ==> |newQueue| == |queue|)
  {
    newSeen, newQueue := seen, queue;
    for k := 0 to |neighbours|
      invariant Met(weights, start, before, met + newQueue, newSeen)
      invariant newSeen == seen + Elements(neighbours[..k])
      invariant queue <= newQueue && (newSeen == seen ==> newQueue == queue)
    {
      var y := neighbours[k];
      assert neighbours[..k + 1] == neighbours[..k] + [y];
      if y !in newSeen {
        MeetOne(weights, start, current, before, met + newQueue, newSeen, y);
        assert met + newQueue + [y] == met + (newQueue + [y]);
        newSeen, newQueue := newSeen + {y}, newQueue + [y];
      }
    }
    assert neighbours[..|neighbours|] == neighbours;
  }

  lemma MeetOne(weights: map<Pair, real>, start: string, current: string, before: set<string>, met: seq<string>,
                seen: set<string>, y: string)
    requires Met(weights, start, before, met, seen) && y !in seen
    requires Connected(weights, start, current) && Strong(weights, current, y)
    ensures Met(weights, start, before, met + [y], seen + {y})
  {
    assert Leads(weights, [current, y], current, y);
    ConnectedIsEquivalence(weights, start, current, y);
    assert forall i :: 0 <= i < |met| ==> met[i] in Elements(met);
  }

  /** Strong neighbours of the entities taken from the queue have all been met. */
  ghost predicate Drained(weights: map<Pair, real>, members: seq<string>, seen: set<string>) {
    forall i, y :: 0 <= i < |members| && Strong(weights, members[i], y) ==> y in seen
  }

  lemma MetWhole(weights: map<Pair, real>, start: string, before: set<string>, members: seq<string>, seen: set<string>)
    requires Closed(weights, before) && Met(weights, start, before, members, seen) && start in members
    requires Drained(weights, members, seen)
    ensures Closed(weights, seen)
    ensures forall x :: x in members <==> Connected(weights, start, x)
  {
    forall x, y | x in seen && Strong(weights, x, y) ensures y in seen {
      if x in members {
        var i :| 0 <= i < |members| && members[i] == x;
      }
    }
    forall x ensures x in members <==> Connected(weights, start, x) {
      if Connected(weights, start, x) {
        ClosedIsWhole(weights, seen, start, x);
        ClosedIsWhole(weights, before, start, x);
        var i :| 0 <= i < |members| && members[i] == start;
        assert members[i] !in before;
      }
    }
  }

  /** Where the inner queue loop stands. */
  ghost predicate Growing(weights: map<Pair, real>, nodes: set<string>, start: string, before: set<string>,
                          members: seq<string>, queue: seq<string>, seen: set<string>) {
    && Met(weights, start, before, members + queue, seen) && start in members + queue
    && seen <= nodes && Drained(weights, members, seen)
  }

  lemma TakeOne(weights: map<Pair, real>, nodes: set<string>, start: string, before: set<string>,
                members: seq<string>, queue: seq<string>, seen: set<string>)
    requires queue != [] && Growing(weights, nodes, start, before, members, queue, seen)
    ensures var current := queue[0];
            && Met(weights, start, before, (members + [current]) + queue[1..], seen)
            && current !in before && current in nodes && Connected(weights, start, current)
  {
    assert members + queue == (members + [queue[0]]) + queue[1..];
    assert (members + queue)[|members|] == queue[0];
    assert queue[0] in Elements(members + queue);
  }

  method Take(adjacency: map<string, seq<string>>, ghost weights: map<Pair, real>, ghost start: string,
              ghost before: set<string>, members: seq<string>, queue: seq<string>, seen: set<string>)
    returns (newMembers: seq<string>, newQueue: seq<string>, newSeen: set<string>)
    requires Lists(adjacency, weights) && EndsAmong(weights, adjacency.Keys) && Closed(weights, before)
    requires queue != [] && Growing(weights, adjacency.Keys, start, before, members, queue, seen)
    ensures Growing(weights, adjacency.Keys, start, before, newMembers, newQueue, newSeen)
    ensures |adjacency.Keys - newSeen| < |adjacency.Keys - seen| || (newSeen == seen && |newQueue| < |queue|)
  {
    var current := queue[0];
    TakeOne(weights, adjacency.Keys, start, before, members, queue, seen);
    newMembers := members + [current];
    newSeen, newQueue := Discover(adjacency[current], weights, start, current, before, newMembers, seen, queue[1..]);
    DrainedNext(adjacency, weights, members, current, seen, newSeen);
    StartStays(start, members, queue, newQueue);
    LessLeft(adjacency.Keys, seen, Elements(adjacency[current]), newSeen);
  }

  lemma LessLeft(nodes: set<string>, seen: set<string>, more: set<string>, newSeen: set<string>)
    requires newSeen == seen + more && newSeen <= nodes
    ensures newSeen == seen || |nodes - newSeen| < |nodes - seen|
  {
    if newSeen != seen {
      var x :| x in more && x !in seen;
      assert x in nodes - seen && x !in nodes - newSeen;
      SmallerSet(nodes - newSeen, nodes - seen);
    }
  }

  lemma StartStays(start: string, members: seq<string>, queue: seq<string>, newQueue: seq<string>)
    requires queue != [] && start in members + queue && queue[1..] <= newQueue
    ensures start in (members + [queue[0]]) + newQueue
  {
    assert queue == [queue[0]] + queue[1..];
  }

  lemma Start(weights: map<Pair, real>, nodes: set<string>, start: string, before: set<string>)
    requires start in nodes && start !in before && before <= nodes
    ensures Growing(weights, nodes, start, before, [], [start], before + {start})
  {
    ConnectedIsEquivalence(weights, start, start, start);
    var met := [] + [start];
    assert met == [start] && Elements(met) == {start};
  }

  lemma GrownWhole(weights: map<Pair, real>, nodes: set<string>, start: string, before: set<string>,
                   members: seq<string>, seen: set<string>)
    requires Closed(weights, before) && Growing(weights, nodes, start, before, members, [], seen)
    ensures Distinct(members) && forall x :: x in members <==> Connected(weights, start, x)
    ensures seen == before + Elements(members) && Closed(weights, seen) && seen <= nodes
  {
    assert members + [] == members;
    MetWhole(weights, start, before, members, seen);
  }

  /** The inner queue loop: the component of `start`. */
  method Component(adjacency: map<string, seq<string>>, ghost weights: map<Pair, real>, start: string,
                   before: set<string>)
    returns (members: seq<string>, seen: set<string>)
    requires Lists(adjacency, weights) && EndsAmong(weights, adjacency.Keys)
    requires start in adjacency && start !in before && Closed(weights, before) && before <= adjacency.Keys
    ensures Distinct(members) && forall x :: x in members <==> Connected(weights, start, x)
    ensures seen == before + Elements(members) && Closed(weights, seen) && seen <= adjacency.Keys
  {
    members, seen := [], before + {start};
    var queue := [start];
    Start(weights, adjacency.Keys, start, before);
    while queue != []
      invariant Growing(weights, adjacency.Keys, start, before, members, queue, seen)
      decreases |adjacency.Keys - seen|, |queue|
    {
      members, queue, seen := Take(adjacency, weights, start, before, members, queue, seen);
    }
    GrownWhole(weights, adjacency.Keys, start, before, members, seen);
  }

  lemma SmallerSet(a: set<string>, b: set<string>)
    requires a < b
    ensures |a| < |b|
  {
    assert b == a + (b - a) && b - a != {};
  }

  lemma DrainedNext(adjacency: map<string, seq<string>>, weights: map<Pair, real>, members: seq<string>,
                    current: string,
                    wasSeen: set<string>, seen: set<string>)
    requires Lists(adjacency, weights) && EndsAmong(weights, adjacency.Keys) && current in adjacency
    requires Drained(weights, members, wasSeen) && seen == wasSeen + Elements(adjacency[current])
    ensures Drained(weights, members + [current], seen)
    ensures seen <= wasSeen + adjacency.Keys
  {
    forall y | Strong(weights, current, y) ensures y in adjacency[current] {
      var key := Key(current, y);
      assert key.0 in adjacency && key.1 in adjacency;
    }
  }

  // ----- edges and adjacency -----

  datatype WeightedEdge = WeightedEdge(left: string, right: string, weight: real)

  predicate PairLe(p: Pair, q: Pair) { LexLe(StringLe, [p.0, p.1], [q.0, q.1]) }

  lemma PairsAreOrdered()
    ensures TotalOrder(PairLe)
  {
    StringsAreOrdered();
    LexIsTotalOrder(StringLe);
    var lex := (a: seq<string>, b: seq<string>) => LexLe(StringLe, a, b);
    forall p, q | PairLe(p, q) && PairLe(q, p) ensures p == q {
      assert lex([p.0, p.1], [q.0, q.1]) && lex([q.0, q.1], [p.0, p.1]);
      assert [p.0, p.1][0] == [q.0, q.1][0] && [p.0, p.1][1] == [q.0, q.1][1];
    }
    forall p ensures PairLe(p, p) { assert lex([p.0, p.1], [p.0, p.1]); }
    forall p, q ensures PairLe(p, q) || PairLe(q, p) {
      assert lex([p.0, p.1], [q.0, q.1]) || lex([q.0, q.1], [p.0, p.1]);
    }
    forall p, q, r | PairLe(p, q) && PairLe(q, r) ensures PairLe(p, r) {
      assert lex([p.0, p.1], [q.0, q.1]) && lex([q.0, q.1], [r.0, r.1]);
      assert lex([p.0, p.1], [r.0, r.1]);
    }
  }

  function PairOf(e: WeightedEdge): Pair { (e.left, e.right) }

  function PairsOf(edges: seq<WeightedEdge>): (keys: seq<Pair>)
    ensures |keys| == |edges| && forall i :: 0 <= i < |edges| ==> keys[i] == PairOf(edges[i])
  {
    seq(|edges|, i requires 0 <= i < |edges| => PairOf(edges[i]))
  }

  /** Every weighted pair once, in the order of the pairs, with its clipped weight. */
  ghost predicate ListsEdges(weights: map<Pair, real>, edges: seq<WeightedEdge>) {
    && (forall i :: 0 <= i < |edges| ==>
          PairOf(edges[i]) in weights && edges[i].weight == Clip(weights[PairOf(edges[i])]))
    && (forall key :: key in weights ==> exists i :: 0 <= i < |edges| && PairOf(edges[i]) == key)
    && StrictlySorted(PairLe, PairsOf(edges))
  }

  lemma OneListing(weights: map<Pair, real>, a: seq<WeightedEdge>, b: seq<WeightedEdge>)
    requires ListsEdges(weights, a) && ListsEdges(weights, b)
    ensures a == b
  {
    PairsAreOrdered();
    PairsListed(weights, a);
    PairsListed(weights, b);
    SortedIsUnique(PairLe, PairsOf(a), PairsOf(b));
    forall i | 0 <= i < |a| ensures a[i] == b[i] {
      assert PairsOf(a)[i] == PairsOf(b)[i];
    }
  }

  lemma PairsListed(weights: map<Pair, real>, edges: seq<WeightedEdge>)
    requires ListsEdges(weights, edges)
    ensures forall key :: key in PairsOf(edges) <==> key in weights
  {
    forall key | key in weights ensures key in PairsOf(edges) {
      var i :| 0 <= i < |edges| && PairOf(edges[i]) == key;
      assert PairsOf(edges)[i] == key;
    }
  }

  method EdgeList(weights: map<Pair, real>) returns (edges: seq<WeightedEdge>)
    ensures ListsEdges(weights, edges)
  {
    PairsAreOrdered();
    var keys := SortSet(PairLe, weights.Keys);
    forall i | 0 <= i < |keys| ensures keys[i] in weights { var key := keys[i]; assert key in keys; }
    edges := seq(|keys|, i requires 0 <= i < |keys| => WeightedEdge(keys[i].0, keys[i].1, Clip(weights[keys[i]])));
    KeysListed(weights, keys, edges);
  }

  lemma KeysListed(weights: map<Pair, real>, keys: seq<Pair>, edges: seq<WeightedEdge>)
    requires |edges| == |keys| && forall i :: 0 <= i < |keys| ==> keys[i] in weights
    requires forall i :: 0 <= i < |keys| ==> edges[i] == WeightedEdge(keys[i].0, keys[i].1, Clip(weights[keys[i]]))
    requires StrictlySorted(PairLe, keys) && forall key :: key in weights ==> key in keys
    ensures ListsEdges(weights, edges)
  {
    assert PairsOf(edges) == keys;
    forall key | key in weights ensures exists i :: 0 <= i < |edges| && PairOf(edges[i]) == key {
      var i :| 0 <= i < |keys| && keys[i] == key;
      assert PairOf(edges[i]) == key;
    }
  }

  predicate Joins(e: WeightedEdge, x: string, y: string) {
    (e.left == x && e.right == y) || (e.left == y && e.right == x)
  }

  /** `y` is across a strong edge from `x` among the first `k` edges. */
  ghost predicate Across(edges: seq<WeightedEdge>, k: nat, x: string, y: string)
    requires k <= |edges|
  {
    exists i :: 0 <= i < k && edges[i].weight >= StrongThreshold && Joins(edges[i], x, y)
  }

  ghost predicate Gathers(adjacency: map<string, seq<string>>, edges: seq<WeightedEdge>, k: nat)
    requires k <= |edges|
  {
    forall x, y :: x in adjacency ==> (y in adjacency[x] <==> Across(edges, k, x, y))
  }

  lemma PushBoth(adjacency: map<string, seq<string>>, edges: seq<WeightedEdge>, k: nat)
    requires k < |edges| && Gathers(adjacency, edges, k)
    requires edges[k].left in adjacency && edges[k].right in adjacency && edges[k].left != edges[k].right
    ensures var (l, r) := (edges[k].left, edges[k].right);
            Gathers(if edges[k].weight >= StrongThreshold
                    then adjacency[l := adjacency[l] + [r]][r := adjacency[r] + [l]]
                    else adjacency, edges, k + 1)
  {
    forall x, y ensures Across(edges, k + 1, x, y) <==>
                          Across(edges, k, x, y) || (edges[k].weight >= StrongThreshold && Joins(edges[k], x, y)) {
    }
  }

  method Adjacency(nodes: set<string>, edges: seq<WeightedEdge>) returns (adjacency: map<string, seq<string>>)
    requires forall i :: 0 <= i < |edges| ==>
               edges[i].left in nodes && edges[i].right in nodes && edges[i].left != edges[i].right
    ensures adjacency.Keys == nodes && Gathers(adjacency, edges, |edges|)
  {
    StringsAreOrdered();
    adjacency := map x | x in nodes :: [];
    for k := 0 to |edges|
      invariant adjacency.Keys == nodes && Gathers(adjacency, edges, k)
    {
      PushBoth(adjacency, edges, k);
      if edges[k].weight >= StrongThreshold {
        var l, r := edges[k].left, edges[k].right;
        adjacency := adjacency[l := adjacency[l] + [r]];
        adjacency := adjacency[r := adjacency[r] + [l]];
      }
    }
    var listed := adjacency;
    adjacency := map x | x in listed :: SortSet(StringLe, set y | y in listed[x]);
  }

  lemma AdjacencyLists(weights: map<Pair, real>, edges: seq<WeightedEdge>, adjacency: map<string, seq<string>>)
    requires ListsEdges(weights, edges) && EndsAmong(weights, adjacency.Keys) && Gathers(adjacency, edges, |edges|)
    ensures Lists(adjacency, weights)
  {
    forall x, y | x in adjacency ensures Across(edges, |edges|, x, y) <==> Strong(weights, x, y) && y in adjacency {
      KeysMatch(x, y, x, y);
      if Across(edges, |edges|, x, y) {
        var i :| 0 <= i < |edges| && edges[i].weight >= StrongThreshold && Joins(edges[i], x, y);
        var key := (edges[i].left, edges[i].right);
        assert key in weights && Key(key.0, key.1) == key;
        KeysMatch(key.0, key.1, x, y);
      }
      if Strong(weights, x, y) {
        var key := Key(x, y);
        var i :| 0 <= i < |edges| && edges[i].left == key.0 && edges[i].right == key.1;
        assert Joins(edges[i], x, y);
      }
    }
  }

  // ----- one community -----

  datatype Community = Community(id: string, members: seq<string>, score: real, bridges: seq<string>)

  function Internal(edges: seq<WeightedEdge>, members: set<string>): seq<WeightedEdge>
    decreases |edges|
  {
    if edges == [] then []
    else
      var e := edges[|edges| - 1];
      Internal(edges[..|edges| - 1], members) + if e.left in members && e.right in members then [e] else []
  }

  function SumOf(edges: seq<WeightedEdge>): real
    decreases |edges|
  {
    if edges == [] then 0.0 else SumOf(edges[..|edges| - 1]) + edges[|edges| - 1].weight
  }

  /** The mean weight of the internal edges. */
  function Score(edges: seq<WeightedEdge>, members: set<string>): real {
    var internal := Internal(edges, members);
    if internal == [] then 0.0 else SumOf(internal) / |internal| as real
  }

  lemma {:induction false} InternalWithin(edges: seq<WeightedEdge>, members: set<string>)
    requires forall i :: 0 <= i < |edges| ==> 0.0 <= edges[i].weight <= 1.0
    ensures forall i :: 0 <= i < |Internal(edges, members)| ==> 0.0 <= Internal(edges, members)[i].weight <= 1.0
    decreases |edges|
  {
    if edges != [] { InternalWithin(edges[..|edges| - 1], members); }
  }

  lemma {:induction false} SumWithin(edges: seq<WeightedEdge>)
    requires forall i :: 0 <= i < |edges| ==> 0.0 <= edges[i].weight <= 1.0
    ensures 0.0 <= SumOf(edges) <= |edges| as real
    decreases |edges|
  {
    if edges != [] { SumWithin(edges[..|edges| - 1]); }
  }

  lemma QuotientWithin(sum: real, n: real)
    requires 0.0 <= sum <= n && n > 0.0
    ensures 0.0 <= sum / n <= 1.0
  {
  }

  lemma ScoreWithin(edges: seq<WeightedEdge>, members: set<string>)
    requires forall i :: 0 <= i < |edges| ==> 0.0 <= edges[i].weight <= 1.0
    ensures 0.0 <= Score(edges, members) <= 1.0
  {
    var internal := Internal(edges, members);
    InternalWithin(edges, members);
    SumWithin(internal);
    if internal != [] { QuotientWithin(SumOf(internal), |internal| as real); }
  }

  /** Some edge leads from `x` out of the members. */
  predicate LeadsOut(edges: seq<WeightedEdge>, members: set<string>, x: string) {
    exists i | 0 <= i < |edges| ::
      (edges[i].left == x && edges[i].right !in members) || (edges[i].right == x && edges[i].left !in members)
  }

  function JoinWith(members: seq<string>): string {
    if members == [] then "" else if |members| == 1 then members[0] else members[0] + "-" + JoinWith(members[1..])
  }

  ghost predicate Describes(edges: seq<WeightedEdge>, c: Community) {
    && StrictlySorted(StringLe, c.members) && c.id == "community:" + JoinWith(c.members)
    && c.score == Score(edges, Elements(c.members))
    && StrictlySorted(StringLe, c.bridges)
    && forall x :: x in c.bridges <==> x in c.members && LeadsOut(edges, Elements(c.members), x)
  }

  method Describe(edges: seq<WeightedEdge>, unsorted: seq<string>) returns (c: Community)
    ensures Describes(edges, c) && forall x :: x in c.members <==> x in unsorted
  {
    StringsAreOrdered();
    var memberSet := set x | x in unsorted;
    var members := SortSet(StringLe, memberSet);
    assert Elements(members) == memberSet;
    var bridges := SortSet(StringLe, set x | x in memberSet && LeadsOut(edges, memberSet, x));
    c := Community("community:" + JoinWith(members), members, Score(edges, memberSet), bridges);
  }

  // ----- the partition -----

  /** Every community is a component and has members, each entity of `seen` is in one, and no two overlap. */
  ghost predicate Partitions(weights: map<Pair, real>, seen: set<string>, cs: seq<Community>) {
    && (forall x :: x in seen <==> exists i :: 0 <= i < |cs| && x in cs[i].members)
    && (forall i :: 0 <= i < |cs| ==> cs[i].members != [])
    && (forall i, x, y :: 0 <= i < |cs| && x in cs[i].members ==> (y in cs[i].members <==> Connected(weights, x, y)))
    && (forall i, j, x :: 0 <= i < j < |cs| && x in cs[i].members ==> x !in cs[j].members)
  }

  lemma AddCommunity(weights: map<Pair, real>, before: set<string>, cs: seq<Community>, c: Community, start: string)
    requires Partitions(weights, before, cs) && Closed(weights, before) && start !in before
    requires forall x :: x in c.members <==> Connected(weights, start, x)
    ensures Partitions(weights, before + Elements(c.members), cs + [c])
  {
    var more := cs + [c];
    ConnectedIsEquivalence(weights, start, start, start);
    assert start in c.members;
    assert forall i :: 0 <= i < |cs| ==> more[i] == cs[i];
    assert more[|cs|] == c;
    forall x, y | x in c.members ensures y in c.members <==> Connected(weights, x, y) {
      ConnectedIsEquivalence(weights, start, x, y);
      ConnectedIsEquivalence(weights, x, start, y);
    }
    forall x | x in c.members ensures x !in before {
      ClosedIsWhole(weights, before, start, x);
    }
    forall x ensures x in before + Elements(c.members) <==> exists i :: 0 <= i < |more| && x in more[i].members {
      if x in before { var i :| 0 <= i < |cs| && x in cs[i].members; assert x in more[i].members; }
      if x in c.members { assert x in more[|cs|].members; }
    }
  }

  /** `more` holds the communities of `cs`, in another order. */
  function InsertById(cs: seq<Community>, c: Community): (more: seq<Community>)
    ensures |more| == |cs| + 1
    ensures forall d :: d in more <==> d in cs || d == c
  {
    if cs == [] then [c]
    else if StringLe(cs[|cs| - 1].id, c.id) then cs + [c]
    else
      assert cs == cs[..|cs| - 1] + [cs[|cs| - 1]];
      InsertById(cs[..|cs| - 1], c) + [cs[|cs| - 1]]
  }

  function SortById(cs: seq<Community>): (sorted: seq<Community>)
    ensures |sorted| == |cs| && forall d :: d in sorted <==> d in cs
  {
    if cs == [] then []
    else
      assert cs == cs[..|cs| - 1] + [cs[|cs| - 1]];
      InsertById(SortById(cs[..|cs| - 1]), cs[|cs| - 1])
  }

  ghost predicate Apart(cs: seq<Community>) {
    forall i, j, x :: 0 <= i < j < |cs| && x in cs[i].members ==> x !in cs[j].members
  }

  ghost predicate ById(cs: seq<Community>) {
    forall i, j :: 0 <= i < j < |cs| ==> StringLe(cs[i].id, cs[j].id)
  }

  lemma {:induction false} InsertKeeps(cs: seq<Community>, c: Community)
    requires Apart(cs) && ById(cs) && forall d, x :: d in cs && x in d.members ==> x !in c.members
    ensures Apart(InsertById(cs, c)) && ById(InsertById(cs, c))
  {
    StringsAreOrdered();
    if cs != [] && !StringLe(cs[|cs| - 1].id, c.id) {
      var front, last := cs[..|cs| - 1], cs[|cs| - 1];
      InsertKeeps(front, c);
      var more := InsertById(front, c);
      forall i | 0 <= i < |more|
        ensures StringLe(more[i].id, last.id) && forall x :: x in more[i].members ==> x !in last.members
      {
        var d := more[i];
        assert d in more;
        if d != c { var j :| 0 <= j < |front| && front[j] == d; assert cs[j] == d; }
      }
    }
  }

  lemma {:induction false} SortKeeps(cs: seq<Community>)
    requires Apart(cs)
    ensures Apart(SortById(cs)) && ById(SortById(cs))
  {
    if cs != [] {
      var front, last := cs[..|cs| - 1], cs[|cs| - 1];
      SortKeeps(front);
      forall d, x | d in SortById(front) && x in d.members ensures x !in last.members {
        var j :| 0 <= j < |front| && front[j] == d;
        assert cs[j] == d;
      }
      InsertKeeps(SortById(front), last);
    }
  }

  /** A community with members, which are one whole component among the entities seen. */
  ghost predicate OneOf(weights: map<Pair, real>, seen: set<string>, c: Community) {
    c.members != [] && forall x, y :: x in c.members ==> x in seen && (y in c.members <==> Connected(weights, x, y))
  }

  lemma SortPartitions(weights: map<Pair, real>, seen: set<string>, cs: seq<Community>)
    requires Partitions(weights, seen, cs)
    ensures Partitions(weights, seen, SortById(cs)) && ById(SortById(cs))
  {
    SortKeeps(cs);
    var sorted := SortById(cs);
    forall i | 0 <= i < |sorted| ensures OneOf(weights, seen, sorted[i]) {
      var j := PlaceIn(cs, sorted[i]);
    }
    forall x | x in seen ensures exists i :: 0 <= i < |sorted| && x in sorted[i].members {
      var j :| 0 <= j < |cs| && x in cs[j].members;
      var i := PlaceIn(sorted, cs[j]);
    }
    ApartPartition(weights, seen, sorted);
  }

  lemma ApartPartition(weights: map<Pair, real>, seen: set<string>, cs: seq<Community>)
    requires Apart(cs) && forall i :: 0 <= i < |cs| ==> OneOf(weights, seen, cs[i])
    requires forall x :: x in seen ==> exists i :: 0 <= i < |cs| && x in cs[i].members
    ensures Partitions(weights, seen, cs)
  {
  }

  lemma PlaceIn(cs: seq<Community>, c: Community) returns (j: nat)
    requires c in cs
    ensures j < |cs| && cs[j] == c
  {
    j :| 0 <= j < |cs| && cs[j] == c;
  }

  ghost predicate Found(weights: map<Pair, real>, nodes: set<string>, edges: seq<WeightedEdge>, seen: set<string>,
                        cs: seq<Community>) {
    && Partitions(weights, seen, cs) && Closed(weights, seen) && seen <= nodes
    && forall i :: 0 <= i < |cs| ==> Describes(edges, cs[i])
  }

  method NextComponent(adjacency: map<string, seq<string>>, ghost weights: map<Pair, real>, edges: seq<WeightedEdge>,
                       name: string, seen: set<string>, cs: seq<Community>)
    returns (newSeen: set<string>, newCs: seq<Community>)
    requires Lists(adjacency, weights) && EndsAmong(weights, adjacency.Keys)
    requires name in adjacency && name !in seen && Found(weights, adjacency.Keys, edges, seen, cs)
    ensures Found(weights, adjacency.Keys, edges, newSeen, newCs) && name in newSeen && seen <= newSeen
  {
    ConnectedIsEquivalence(weights, name, name, name);
    var unsorted;
    unsorted, newSeen := Component(adjacency, weights, name, seen);
    var c := Describe(edges, unsorted);
    AddCommunity(weights, seen, cs, c, name);
    assert Elements(c.members) == Elements(unsorted);
    newCs := cs + [c];
  }

  /** The outer loop's body. */
  method VisitName(adjacency: map<string, seq<string>>, ghost weights: map<Pair, real>, edges: seq<WeightedEdge>,
                   name: string, seen: set<string>, cs: seq<Community>)
    returns (newSeen: set<string>, newCs: seq<Community>)
    requires Lists(adjacency, weights) && EndsAmong(weights, adjacency.Keys)
    requires name in adjacency && Found(weights, adjacency.Keys, edges, seen, cs)
    ensures Found(weights, adjacency.Keys, edges, newSeen, newCs) && name in newSeen && seen <= newSeen
  {
    newSeen, newCs := seen, cs;
    if name !in seen { newSeen, newCs := NextComponent(adjacency, weights, edges, name, seen, cs); }
  }

  /** The outer loop: a component for every entity not met yet, in name order. */
  method EachComponent(adjacency: map<string, seq<string>>, ghost weights: map<Pair, real>, edges: seq<WeightedEdge>,
                       names: seq<string>)
    returns (ghost seen: set<string>, cs: seq<Community>)
    requires Lists(adjacency, weights) && EndsAmong(weights, adjacency.Keys)
    requires forall i :: 0 <= i < |names| ==> names[i] in adjacency
    ensures Found(weights, adjacency.Keys, edges, seen, cs)
    ensures forall i :: 0 <= i < |names| ==> names[i] in seen
  {
    var met: set<string> := {};
    cs := [];
    for k := 0 to |names|
      invariant Found(weights, adjacency.Keys, edges, met, cs)
      invariant forall i :: 0 <= i < k ==> names[i] in met
    {
      ghost var before := met;
      met, cs := VisitName(adjacency, weights, edges, names[k], met, cs);
      assert forall i :: 0 <= i < k ==> names[i] in before;
    }
    seen := met;
  }

  method AllComponents(nodes: set<string>, weights: map<Pair, real>, edges: seq<WeightedEdge>)
    returns (cs: seq<Community>)
    requires EndsAmong(weights, nodes) && ListsEdges(weights, edges)
    ensures Found(weights, nodes, edges, nodes, cs)
  {
    StringsAreOrdered();
    var adjacency := Adjacency(nodes, edges);
    AdjacencyLists(weights, edges, adjacency);
    var names := SortSet(StringLe, nodes);
    forall i | 0 <= i < |names| ensures names[i] in nodes { var x := names[i]; assert x in names; }
    ghost var seen;
    seen, cs := EachComponent(adjacency, weights, edges, names);
    EveryName(nodes, names, seen);
  }

  lemma EveryName(nodes: set<string>, names: seq<string>, seen: set<string>)
    requires seen <= nodes && (forall x :: x in names <==> x in nodes)
    requires forall i :: 0 <= i < |names| ==> names[i] in seen
    ensures seen == nodes
  {
    forall x | x in nodes ensures x in seen { var i :| 0 <= i < |names| && names[i] == x; }
  }

  // ----- detect_communities_with_scope -----

  function AdmittedClaims(core: ClaimTables, scope: string, walk: Walk): (ids: seq<int>)
    ensures forall k :: 0 <= k < |ids| ==> ids[k] in core.claims
  {
    var admitted := set id | id in core.claims && core.claims[id].status == Active
                             && Admits(scope, walk, core.claims[id].scope);
    var ids := SortSet(IntLe, admitted);
    assert forall k :: 0 <= k < |ids| ==> ids[k] in core.claims by {
      forall k | 0 <= k < |ids| ensures ids[k] in core.claims { var id := ids[k]; assert id in ids; }
    }
    ids
  }

  function AdmittedHyperedges(core: ClaimTables, scope: string, walk: Walk): (ids: seq<int>)
    ensures forall k :: 0 <= k < |ids| ==> ids[k] in core.hyperedges
  {
    if !HyperedgesInScope(scope, walk) then []
    else
      var ids := SortSet(IntLe, core.hyperedges.Keys);
      assert forall k :: 0 <= k < |ids| ==> ids[k] in core.hyperedges by {
        forall k | 0 <= k < |ids| ensures ids[k] in core.hyperedges { var id := ids[k]; assert id in ids; }
      }
      ids
  }

  /** Every contribution to an edge weight: one a claim, one a pair of a hyperedge's participants. */
  function Parts(core: ClaimTables, scope: string, walk: Walk): seq<Part> {
    ClaimParts(core.claims, AdmittedClaims(core, scope, walk))
    + HyperedgeParts(core.hyperedges, AdmittedHyperedges(core, scope, walk))
  }

  function ParticipantNames(participants: seq<Participant>): set<string> {
    set i | 0 <= i < |participants| :: participants[i].entity
  }

  function Nodes(core: ClaimTables, scope: string, walk: Walk): set<string> {
    var claimIds, hyperedgeIds := AdmittedClaims(core, scope, walk), AdmittedHyperedges(core, scope, walk);
    (set k | 0 <= k < |claimIds| :: core.claims[claimIds[k]].subject)
    + (set k | 0 <= k < |claimIds| :: core.claims[claimIds[k]].object_)
    + (set k, x | 0 <= k < |hyperedgeIds| && x in ParticipantNames(core.hyperedges[hyperedgeIds[k]].participants) :: x)
  }

  ghost predicate Among(parts: seq<Part>, nodes: set<string>) {
    forall i :: 0 <= i < |parts| ==> parts[i].left in nodes && parts[i].right in nodes
  }

  lemma {:induction false} ClaimPartsAmong(claims: map<int, ClaimRow>, ids: seq<int>, nodes: set<string>)
    requires forall k :: 0 <= k < |ids| ==>
               ids[k] in claims && claims[ids[k]].subject in nodes && claims[ids[k]].object_ in nodes
    ensures Among(ClaimParts(claims, ids), nodes)
    decreases |ids|
  {
    if ids != [] { ClaimPartsAmong(claims, ids[..|ids| - 1], nodes); }
  }

  lemma {:induction false} PairPartsAmong(participants: seq<Participant>, weight: real, l: nat, nodes: set<string>)
    requires ParticipantNames(participants) <= nodes
    ensures Among(PairParts(participants, weight, l), nodes)
    decreases |participants| - l
  {
    if l < |participants| {
      PairsFromAmong(participants, weight, l, l + 1, nodes);
      PairPartsAmong(participants, weight, l + 1, nodes);
    }
  }

  lemma {:induction false} PairsFromAmong(participants: seq<Participant>, weight: real, l: nat, r: nat,
                                          nodes: set<string>)
    requires l < |participants| && ParticipantNames(participants) <= nodes
    ensures Among(PairsFrom(participants, weight, l, r), nodes)
    decreases |participants| - r
  {
    if r < |participants| {
      assert participants[l].entity in ParticipantNames(participants);
      assert participants[r].entity in ParticipantNames(participants);
      PairsFromAmong(participants, weight, l, r + 1, nodes);
    }
  }

  lemma AmongAppend(a: seq<Part>, b: seq<Part>, nodes: set<string>)
    requires Among(a, nodes) && Among(b, nodes)
    ensures Among(a + b, nodes)
  {
  }

  lemma {:induction false} HyperedgePartsAmong(hyperedges: map<int, HyperedgeRow>, ids: seq<int>, nodes: set<string>)
    requires forall k :: 0 <= k < |ids| ==>
               ids[k] in hyperedges && ParticipantNames(hyperedges[ids[k]].participants) <= nodes
    ensures Among(HyperedgeParts(hyperedges, ids), nodes)
    decreases |ids|
  {
    if ids != [] {
      HyperedgePartsAmong(hyperedges, ids[..|ids| - 1], nodes);
      var h := hyperedges[ids[|ids| - 1]];
      PairPartsAmong(h.participants, Share(h.confidence, h.provenance), 0, nodes);
      AmongAppend(HyperedgeParts(hyperedges, ids[..|ids| - 1]),
                  PairParts(h.participants, Share(h.confidence, h.provenance), 0), nodes);
      assert HyperedgeParts(hyperedges, ids) == HyperedgeParts(hyperedges, ids[..|ids| - 1])
          + PairParts(h.participants, Share(h.confidence, h.provenance), 0);
    }
  }

  lemma PartsAmongNodes(core: ClaimTables, scope: string, walk: Walk)
    ensures Among(Parts(core, scope, walk), Nodes(core, scope, walk))
  {
    var nodes := Nodes(core, scope, walk);
    AdmittedAmong(core, scope, walk);
    ClaimPartsAmong(core.claims, AdmittedClaims(core, scope, walk), nodes);
    HyperedgePartsAmong(core.hyperedges, AdmittedHyperedges(core, scope, walk), nodes);
    AmongAppend(ClaimParts(core.claims, AdmittedClaims(core, scope, walk)),
                HyperedgeParts(core.hyperedges, AdmittedHyperedges(core, scope, walk)), nodes);
  }

  lemma AdmittedAmong(core: ClaimTables, scope: string, walk: Walk)
    ensures var nodes := Nodes(core, scope, walk);
            var ids := AdmittedClaims(core, scope, walk);
            forall k :: 0 <= k < |ids| ==> core.claims[ids[k]].subject in nodes && core.claims[ids[k]].object_ in nodes
    ensures var nodes := Nodes(core, scope, walk);
            var ids := AdmittedHyperedges(core, scope, walk);
            forall k :: 0 <= k < |ids| ==> ParticipantNames(core.hyperedges[ids[k]].participants) <= nodes
  {
  }

  lemma WeightsAmong(parts: seq<Part>, weights: map<Pair, real>, nodes: set<string>)
    requires Weighs(parts, weights) && Among(parts, nodes)
    ensures EndsAmong(weights, nodes)
  {
    forall key | key in weights ensures key.0 in nodes && key.1 in nodes && Key(key.0, key.1) == key && key.0 != key.1 {
      assert Paired(parts, key);
      var i :| 0 <= i < |parts| && parts[i].left != parts[i].right && Key(parts[i].left, parts[i].right) == key;
      KeysMatch(parts[i].left, parts[i].right, key.0, key.1);
    }
  }

  /** What the call returns, for the summed contributions `parts`. */
  ghost predicate Detected(parts: seq<Part>, nodes: set<string>, cs: seq<Community>,
                           weights: map<Pair, real>, edges: seq<WeightedEdge>) {
    && Weighs(parts, weights) && EndsAmong(weights, nodes) && ListsEdges(weights, edges)
    && Partitions(weights, nodes, cs) && ById(cs)
    && forall i :: 0 <= i < |cs| ==> Describes(edges, cs[i])
  }

  method DetectCommunities(core: ClaimTables, scope: string, walk: Walk) returns (r: Result<seq<Community>, ()>)
    ensures r.Ok? <==> ValidScope(scope)
    ensures r.Ok? ==> exists weights, edges ::
              Detected(Parts(core, scope, walk), Nodes(core, scope, walk), r.value, weights, edges)
  {
    if !ValidScope(scope) { return Err(()); }
    var parts, nodes := Parts(core, scope, walk), Nodes(core, scope, walk);
    var weights := SumWeights(parts);
    PartsAmongNodes(core, scope, walk);
    WeightsAmong(parts, weights, nodes);
    var edges := EdgeList(weights);
    var cs := AllComponents(nodes, weights, edges);
    SortPartitions(weights, nodes, cs);
    var sorted := SortById(cs);
    forall i | 0 <= i < |sorted| ensures Describes(edges, sorted[i]) {
      var d := sorted[i];
      assert d in sorted;
    }
    assert Detected(parts, nodes, sorted, weights, edges);
    r := Ok(sorted);
  }

  // ----- what it means -----

  /** The description leaves no freedom: whatever satisfies it holds the same communities, scores and bridges. */
  lemma DetectedIsUnique(parts: seq<Part>, nodes: set<string>,
                         cs: seq<Community>, weights: map<Pair, real>, edges: seq<WeightedEdge>,
                         ds: seq<Community>, otherWeights: map<Pair, real>, otherEdges: seq<WeightedEdge>)
    requires Detected(parts, nodes, cs, weights, edges) && Detected(parts, nodes, ds, otherWeights, otherEdges)
    ensures edges == otherEdges && Distinct(cs) && forall c :: c in cs <==> c in ds
  {
    SameWeights(parts, weights, otherWeights);
    OneListing(weights, edges, otherEdges);
    EachOnce(weights, nodes, cs);
    forall c | c in cs ensures c in ds { Counterpart(weights, nodes, edges, cs, ds, c); }
    forall d | d in ds ensures d in cs { Counterpart(weights, nodes, edges, ds, cs, d); }
  }

  lemma SameWeights(parts: seq<Part>, a: map<Pair, real>, b: map<Pair, real>)
    requires Weighs(parts, a) && Weighs(parts, b)
    ensures a == b
  {
    assert a.Keys == b.Keys;
  }

  lemma EachOnce(weights: map<Pair, real>, nodes: set<string>, cs: seq<Community>)
    requires Partitions(weights, nodes, cs)
    ensures Distinct(cs)
  {
    forall i, j | 0 <= i < j < |cs| ensures cs[i] != cs[j] {
      var x := cs[i].members[0];
      assert x in cs[i].members;
    }
  }

  lemma Counterpart(weights: map<Pair, real>, nodes: set<string>, edges: seq<WeightedEdge>, cs: seq<Community>,
                    ds: seq<Community>, c: Community)
    requires Partitions(weights, nodes, cs) && Partitions(weights, nodes, ds) && c in cs && Describes(edges, c)
    requires forall j :: 0 <= j < |ds| ==> Describes(edges, ds[j])
    ensures c in ds
  {
    var i := PlaceIn(cs, c);
    var x := c.members[0];
    assert x in cs[i].members && x in nodes;
    var j :| 0 <= j < |ds| && x in ds[j].members;
    forall y ensures y in c.members <==> y in ds[j].members {
      assert y in cs[i].members <==> Connected(weights, x, y);
      assert y in ds[j].members <==> Connected(weights, x, y);
    }
    DescribedAlike(edges, c, ds[j]);
  }

  lemma DescribedAlike(edges: seq<WeightedEdge>, c: Community, d: Community)
    requires Describes(edges, c) && Describes(edges, d) && forall y :: y in c.members <==> y in d.members
    ensures c == d
  {
    StringsAreOrdered();
    SortedIsUnique(StringLe, c.members, d.members);
    SortedIsUnique(StringLe, c.bridges, d.bridges);
  }

  lemma SameCommunityIffChain(parts: seq<Part>, nodes: set<string>, cs: seq<Community>, weights: map<Pair, real>,
                              edges: seq<WeightedEdge>, x: string, y: string)
    requires Detected(parts, nodes, cs, weights, edges) && x in nodes
    ensures (exists i :: 0 <= i < |cs| && x in cs[i].members && y in cs[i].members) <==> Connected(weights, x, y)
    ensures Strong(weights, x, y) <==>
              x != y && Paired(parts, Key(x, y)) && Clip(Total(parts, Key(x, y))) >= StrongThreshold
  {
    var i :| 0 <= i < |cs| && x in cs[i].members;
    assert y in cs[i].members <==> Connected(weights, x, y);
  }

  lemma OutEdge(weights: map<Pair, real>, nodes: set<string>, edges: seq<WeightedEdge>, members: set<string>, x: string)
    returns (y: string)
    requires EndsAmong(weights, nodes) && ListsEdges(weights, edges) && LeadsOut(edges, members, x)
    ensures y !in members && Key(x, y) in weights && (x in members ==> x != y)
  {
    var j :| 0 <= j < |edges| && ((edges[j].left == x && edges[j].right !in members)
                                  || (edges[j].right == x && edges[j].left !in members));
    var key := (edges[j].left, edges[j].right);
    assert key in weights;
    y := if edges[j].left == x && edges[j].right !in members then edges[j].right else edges[j].left;
    KeysMatch(key.0, key.1, x, y);
  }

  lemma EdgeLeadsOut(weights: map<Pair, real>, edges: seq<WeightedEdge>, members: set<string>, x: string, y: string)
    requires ListsEdges(weights, edges) && Key(x, y) in weights && y !in members
    ensures LeadsOut(edges, members, x)
  {
    var key := Key(x, y);
    var j :| 0 <= j < |edges| && edges[j].left == key.0 && edges[j].right == key.1;
  }

  /** Bridge nodes are exactly the members with an edge out. */
  lemma BridgesLeadOut(parts: seq<Part>, nodes: set<string>, cs: seq<Community>, weights: map<Pair, real>,
                       edges: seq<WeightedEdge>, i: nat, x: string)
    requires Detected(parts, nodes, cs, weights, edges) && i < |cs|
    ensures x in cs[i].bridges <==>
              x in cs[i].members && exists y :: y !in cs[i].members && x != y && Paired(parts, Key(x, y))
  {
    var members := Elements(cs[i].members);
    if x in cs[i].bridges { var y := OutEdge(weights, nodes, edges, members, x); }
    if y :| x in cs[i].members && y !in cs[i].members && x != y && Paired(parts, Key(x, y)) {
      EdgeLeadsOut(weights, edges, members, x, y);
    }
  }

  /** Every edge out of a community is weak. */
  lemma LeavingEdgesAreWeak(parts: seq<Part>, nodes: set<string>, cs: seq<Community>, weights: map<Pair, real>,
                            edges: seq<WeightedEdge>, i: nat, x: string, y: string)
    requires Detected(parts, nodes, cs, weights, edges) && i < |cs|
    requires x in cs[i].members && y !in cs[i].members && x != y && Paired(parts, Key(x, y))
    ensures Clip(Total(parts, Key(x, y))) < StrongThreshold
  {
    NotStrongAcross(weights, nodes, cs, i, x, y);
    assert Key(x, y) in weights && weights[Key(x, y)] == Total(parts, Key(x, y));
  }

  lemma NotStrongAcross(weights: map<Pair, real>, nodes: set<string>, cs: seq<Community>, i: nat, x: string, y: string)
    requires Partitions(weights, nodes, cs) && i < |cs| && x in cs[i].members && y !in cs[i].members
    ensures !Strong(weights, x, y)
  {
    assert y in cs[i].members <==> Connected(weights, x, y);
    if Strong(weights, x, y) { assert Leads(weights, [x, y], x, y); }
  }

  lemma {:induction false} TotalNotNegative(parts: seq<Part>, key: Pair)
    requires forall i :: 0 <= i < |parts| ==> parts[i].weight >= 0.0
    ensures Total(parts, key) >= 0.0
    decreases |parts|
  {
    if parts != [] { TotalNotNegative(parts[..|parts| - 1], key); }
  }

  lemma ScoresWithin(parts: seq<Part>, nodes: set<string>, cs: seq<Community>, weights: map<Pair, real>,
                     edges: seq<WeightedEdge>, i: nat)
    requires Detected(parts, nodes, cs, weights, edges) && i < |cs|
    requires NotNegative(parts)
    ensures 0.0 <= cs[i].score <= 1.0
  {
    forall j | 0 <= j < |edges| ensures 0.0 <= edges[j].weight <= 1.0 {
      TotalNotNegative(parts, (edges[j].left, edges[j].right));
    }
    ScoreWithin(edges, Elements(cs[i].members));
  }

  ghost predicate NotNegative(parts: seq<Part>) {
    forall i :: 0 <= i < |parts| ==> parts[i].weight >= 0.0
  }

  lemma {:induction false} ClaimPartsNotNegative(claims: map<int, ClaimRow>, ids: seq<int>)
    requires forall k :: 0 <= k < |ids| ==> ids[k] in claims && Within(claims[ids[k]].confidence)
    ensures NotNegative(ClaimParts(claims, ids))
    decreases |ids|
  {
    if ids != [] {
      ClaimPartsNotNegative(claims, ids[..|ids| - 1]);
      var c := claims[ids[|ids| - 1]];
      assert Share(c.confidence, c.provenance) >= 0.0;
    }
  }

  lemma {:induction false} PairPartsNotNegative(participants: seq<Participant>, weight: real, l: nat)
    requires weight >= 0.0
    ensures NotNegative(PairParts(participants, weight, l))
    decreases |participants| - l
  {
    if l < |participants| {
      PairsFromNotNegative(participants, weight, l, l + 1);
      PairPartsNotNegative(participants, weight, l + 1);
    }
  }

  lemma {:induction false} PairsFromNotNegative(participants: seq<Participant>, weight: real, l: nat, r: nat)
    requires l < |participants| && weight >= 0.0
    ensures NotNegative(PairsFrom(participants, weight, l, r))
    decreases |participants| - r
  {
    if r < |participants| { PairsFromNotNegative(participants, weight, l, r + 1); }
  }

  lemma {:induction false} HyperedgePartsNotNegative(hyperedges: map<int, HyperedgeRow>, ids: seq<int>)
    requires forall k :: 0 <= k < |ids| ==> ids[k] in hyperedges && Within(hyperedges[ids[k]].confidence)
    ensures NotNegative(HyperedgeParts(hyperedges, ids))
    decreases |ids|
  {
    if ids != [] {
      HyperedgePartsNotNegative(hyperedges, ids[..|ids| - 1]);
      var h := hyperedges[ids[|ids| - 1]];
      var weight := Share(h.confidence, h.provenance);
      assert weight >= 0.0;
      PairPartsNotNegative(h.participants, weight, 0);
      assert HyperedgeParts(hyperedges, ids) ==
          HyperedgeParts(hyperedges, ids[..|ids| - 1]) + PairParts(h.participants, weight, 0);
    }
  }

  /** In a store whose confidences lie in [0,1], as every live run keeps them, scores do too. */
  lemma StoreScoresWithin(core: ClaimTables, scope: string, walk: Walk, cs: seq<Community>, weights: map<Pair, real>,
                          edges: seq<WeightedEdge>, i: nat)
    requires forall id :: id in core.claims ==> Within(core.claims[id].confidence)
    requires forall id :: id in core.hyperedges ==> Within(core.hyperedges[id].confidence)
    requires Detected(Parts(core, scope, walk), Nodes(core, scope, walk), cs, weights, edges) && i < |cs|
    ensures 0.0 <= cs[i].score <= 1.0
  {
    ClaimPartsNotNegative(core.claims, AdmittedClaims(core, scope, walk));
    HyperedgePartsNotNegative(core.hyperedges, AdmittedHyperedges(core, scope, walk));
    assert NotNegative(Parts(core, scope, walk));
    ScoresWithin(Parts(core, scope, walk), Nodes(core, scope, walk), cs, weights, edges, i);
  }
}
