/** Neighbourhood expansion (crates/aver-core/src/graph.rs, expand_inner): a breadth-first walk
    over admitted claims, bounded by a number of hops. */
module Expand {
  import opened Prelude
  import opened Records
  import opened PredicateFilter
  import opened Projection
  import opened ScopeWalk
  import opened Writers

  datatype ExpandError = InvalidGraphEntity | InvalidScope | InvalidGraphHops | InvalidPredicateFilter

  datatype Expansion = Expansion(nodes: seq<string>, edges: seq<int>)

  /** The endpoints of each admitted claim. */
  type Links = map<int, (string, string)>

  predicate Passes(filter: Option<set<string>>, c: ClaimRow) {
    filter.None? || c.predicate_ in filter.value
  }

  function AdmittedLinks(claims: map<int, ClaimRow>, filter: Option<set<string>>, scope: string, walk: Walk): Links {
    map id | id in claims && claims[id].status == Active && Admits(scope, walk, claims[id].scope)
             && Passes(filter, claims[id]) :: (claims[id].subject, claims[id].object_)
  }

  // ----- distance -----

  /** The links with an end in `s`. */
  ghost function Touching(links: Links, s: set<string>): set<int> {
    set id | id in links && (links[id].0 in s || links[id].1 in s)
  }

  ghost function Ends(links: Links, ids: set<int>): set<string> {
    (set id | id in ids && id in links :: links[id].0) + (set id | id in ids && id in links :: links[id].1)
  }

  /** The entities within `k` undirected steps. */
  ghost function Ball(links: Links, entity: string, k: nat): set<string> {
    if k == 0 then {entity}
    else Wider(links, Ball(links, entity, k - 1))
  }

  ghost function Wider(links: Links, s: set<string>): set<string> {
    s + Ends(links, Touching(links, s))
  }

  lemma {:induction false} BallGrows(links: Links, entity: string, j: nat, k: nat)
    requires j <= k
    ensures Ball(links, entity, j) <= Ball(links, entity, k)
  {
    if j < k { BallGrows(links, entity, j, k - 1); }
  }

  lemma {:induction false} BallStops(links: Links, entity: string, j: nat, k: nat)
    requires j <= k && Ball(links, entity, j + 1) == Ball(links, entity, j)
    ensures Ball(links, entity, k) == Ball(links, entity, j)
  {
    if j < k { BallStops(links, entity, j, k - 1); }
  }

  /** An undirected walk of `steps` links, as the definition of distance. */
  ghost predicate Walked(links: Links, entity: string, ids: seq<int>, x: string)
    decreases |ids|
  {
    if ids == [] then x == entity
    else
      var last := ids[|ids| - 1];
      last in links
      && ((links[last].1 == x && Walked(links, entity, ids[..|ids| - 1], links[last].0))
          || (links[last].0 == x && Walked(links, entity, ids[..|ids| - 1], links[last].1)))
  }

  lemma {:induction false} WalkedInBall(links: Links, entity: string, ids: seq<int>, x: string)
    requires Walked(links, entity, ids, x)
    ensures x in Ball(links, entity, |ids|)
    decreases |ids|
  {
    if ids != [] {
      var last, before := ids[|ids| - 1], ids[..|ids| - 1];
      if Walked(links, entity, before, links[last].0) && links[last].1 == x {
        WalkedInBall(links, entity, before, links[last].0);
      } else {
        WalkedInBall(links, entity, before, links[last].1);
      }
      assert last in Touching(links, Ball(links, entity, |before|));
    }
  }

  lemma {:induction false} BallIsWalked(links: Links, entity: string, k: nat, x: string) returns (ids: seq<int>)
    requires x in Ball(links, entity, k)
    ensures |ids| <= k && Walked(links, entity, ids, x)
  {
    if k == 0 {
      ids := [];
    } else if x in Ball(links, entity, k - 1) {
      ids := BallIsWalked(links, entity, k - 1, x);
    } else {
      var ball := Ball(links, entity, k - 1);
      var id :| id in Touching(links, ball) && (links[id].0 == x || links[id].1 == x);
      var other := if links[id].0 == x then links[id].1 else links[id].0;
      assert other in ball;
      var before := BallIsWalked(links, entity, k - 1, other);
      ids := before + [id];
      assert ids[..|ids| - 1] == before;
    }
  }

  /** The ball is what undirected walks reach. */
  lemma BallIsDistance(links: Links, entity: string, k: nat, x: string)
    ensures x in Ball(links, entity, k) <==> WithinSteps(links, entity, k, x)
  {
    if x in Ball(links, entity, k) {
      var ids := BallIsWalked(links, entity, k, x);
    }
    if ids :| |ids| <= k && Walked(links, entity, ids, x) {
      WalkedInBall(links, entity, ids, x);
      BallGrows(links, entity, |ids|, k);
    }
  }

  // ----- the loop's standing -----

  /** Everything met is the start and the ends of the links met; those are the links at `done`. */
  ghost predicate Gathered(links: Links, entity: string, done: set<string>, seen: set<string>, ids: set<int>) {
    ids == Touching(links, done) && seen == {entity} + Ends(links, ids) && done <= seen
  }

  /** Inside distance `d`: `done` and the entries of `near` are the ball, those of `far` lie one step further. */
  ghost predicate Inside(links: Links, entity: string, d: nat, done: set<string>, seen: set<string>,
                         near: seq<(string, nat)>, far: seq<(string, nat)>) {
    && Ball(links, entity, d) == done + Names(near)
    && seen == done + Names(near) + Names(far)
    && Queued(near, d, done) && Queued(far, d + 1, Ball(links, entity, d))
  }

  /** Entries at depth `d`, each entity once and none from `before`. */
  ghost predicate Queued(queue: seq<(string, nat)>, d: nat, before: set<string>) {
    && (forall i :: 0 <= i < |queue| ==> queue[i].1 == d && queue[i].0 !in before)
    && (forall i, j :: 0 <= i < j < |queue| ==> queue[i].0 != queue[j].0)
  }

  ghost function Names(queue: seq<(string, nat)>): set<string> {
    set i | 0 <= i < |queue| :: queue[i].0
  }

  /** A level read to its end leaves the next ball complete. */
  lemma LevelEnds(links: Links, entity: string, d: nat, done: set<string>, seen: set<string>, ids: set<int>,
                  far: seq<(string, nat)>)
    requires Gathered(links, entity, done, seen, ids) && Inside(links, entity, d, done, seen, [], far)
    ensures done == Ball(links, entity, d) && seen == Ball(links, entity, d + 1) && ids == Touching(links, done)
    ensures Inside(links, entity, d + 1, done, seen, far, [])
    ensures far == [] ==> Ball(links, entity, d + 1) == Ball(links, entity, d)
  {
    BallGrows(links, entity, 0, d);
    assert entity in Ball(links, entity, d);
    EndsCover(links, entity, d);
  }

  /** Every entity of a ball but the first is an end of a link that touches the ball. */
  lemma {:induction false} EndsCover(links: Links, entity: string, d: nat)
    ensures Ball(links, entity, d) <= {entity} + Ends(links, Touching(links, Ball(links, entity, d)))
  {
    if d > 0 {
      EndsCover(links, entity, d - 1);
      BallGrows(links, entity, d - 1, d);
      EndsGrow(links, Ball(links, entity, d - 1), Ball(links, entity, d));
    }
  }

  lemma EndsGrow(links: Links, a: set<string>, b: set<string>)
    requires a <= b
    ensures Ends(links, Touching(links, a)) <= Ends(links, Touching(links, b))
  {
  }

  /** The entities met and the links met, as lists in order and as sets. */
  datatype Found = Found(nodes: seq<string>, seenNodes: set<string>, edges: seq<int>, seenEdges: set<int>)

  ghost predicate Sound(f: Found) {
    && Distinct(f.nodes) && (forall x :: x in f.seenNodes <==> x in f.nodes)
    && Distinct(f.edges) && (forall id :: id in f.seenEdges <==> id in f.edges)
  }

  function NameList(queue: seq<(string, nat)>): (r: seq<string>)
    ensures |r| == |queue| && forall i :: 0 <= i < |queue| ==> r[i] == queue[i].0
  {
    seq(|queue|, i requires 0 <= i < |queue| => queue[i].0)
  }

  /** From `f` to `g`, `more` was queued at `depth`: exactly the entities of `xs` not met before. */
  ghost predicate Grew(f: Found, g: Found, more: seq<(string, nat)>, xs: set<string>, depth: nat) {
    && g.nodes == f.nodes + NameList(more) && g.seenNodes == f.seenNodes + xs
    && (forall i :: 0 <= i < |more| ==> more[i].1 == depth && more[i].0 !in f.seenNodes)
  }

  method MeetNode(f: Found, x: string, depth: nat) returns (g: Found, more: seq<(string, nat)>)
    requires Sound(f)
    ensures Sound(g) && Grew(f, g, more, {x}, depth) && g.edges == f.edges && g.seenEdges == f.seenEdges
  {
    if x in f.seenNodes {
      return f, [];
    }
    g, more := f.(nodes := f.nodes + [x], seenNodes := f.seenNodes + {x}), [(x, depth)];
    assert NameList(more) == [x];
  }

  lemma GrewTwice(f: Found, g: Found, h: Found, more: seq<(string, nat)>, later: seq<(string, nat)>,
                  xs: set<string>, ys: set<string>, depth: nat)
    requires Grew(f, g, more, xs, depth) && Grew(g, h, later, ys, depth)
    ensures Grew(f, h, more + later, xs + ys, depth)
  {
    assert NameList(more + later) == NameList(more) + NameList(later);
  }

  function ActiveAt(claims: map<int, ClaimRow>, current: string, scope: string, walk: Walk): (ids: set<int>)
    ensures ids <= claims.Keys
  {
    set id | id in claims && claims[id].status == Active && Admits(scope, walk, claims[id].scope)
             && (claims[id].subject == current || claims[id].object_ == current)
  }

  /** The claims at an entity, as the query lists them. */
  method EdgesAt(claims: map<int, ClaimRow>, current: string, scope: string, walk: Walk) returns (ids: seq<int>)
    ensures forall id :: id in ids <==> id in ActiveAt(claims, current, scope, walk)
  {
    ids := SortSet(IntLe, ActiveAt(claims, current, scope, walk));
  }

  lemma LinksAt(claims: map<int, ClaimRow>, filter: Option<set<string>>, current: string, scope: string, walk: Walk,
                id: int)
    ensures var links := AdmittedLinks(claims, filter, scope, walk);
            id in Touching(links, {current}) <==>
              id in ActiveAt(claims, current, scope, walk) && id in links
    ensures id in ActiveAt(claims, current, scope, walk) ==>
              (id in AdmittedLinks(claims, filter, scope, walk) <==> Passes(filter, claims[id]))
  {
  }

  lemma EndsAdd(links: Links, a: set<int>, b: set<int>)
    ensures Ends(links, a + b) == Ends(links, a) + Ends(links, b)
  {
  }

  lemma TwoEnds(links: Links, id: int)
    requires id in links
    ensures Ends(links, {id}) == {links[id].0} + {links[id].1}
  {
  }

  ghost predicate EndsMet(links: Links, f: Found) {
    f.seenEdges <= links.Keys && Ends(links, f.seenEdges) <= f.seenNodes
  }

  /** One admitted claim: a claim met before has both its ends met. */
  method MeetEdge(ghost links: Links, id: int, c: ClaimRow, depth: nat, f: Found)
    returns (g: Found, more: seq<(string, nat)>)
    requires Sound(f) && EndsMet(links, f) && id in links && links[id] == (c.subject, c.object_)
    ensures Sound(g) && EndsMet(links, g) && g.seenEdges == f.seenEdges + {id}
    ensures Grew(f, g, more, Ends(links, {id}), depth)
  {
    EndsAdd(links, f.seenEdges, {id});
    TwoEnds(links, id);
    if id in f.seenEdges {
      assert f.seenEdges + {id} == f.seenEdges;
      return f, [];
    }
    var h, first := MeetNode(f, c.subject, depth);
    var h', second := MeetNode(h, c.object_, depth);
    GrewTwice(f, h, h', first, second, {c.subject}, {c.object_}, depth);
    g, more := h'.(edges := h'.edges + [id], seenEdges := h'.seenEdges + {id}), first + second;
  }

  function Kept(links: Links, ids: seq<int>): set<int> {
    set id | id in ids && id in links
  }

  lemma KeptNext(links: Links, ids: seq<int>, id: int)
    ensures Kept(links, ids + [id]) == if id in links then Kept(links, ids) + {id} else Kept(links, ids)
  {
  }

  lemma GrewByEdge(links: Links, met: set<int>, id: int, f: Found, g: Found, h: Found, more: seq<(string, nat)>,
                   next: seq<(string, nat)>, depth: nat)
    requires Grew(f, g, more, Ends(links, met), depth) && Grew(g, h, next, Ends(links, {id}), depth)
    ensures Grew(f, h, more + next, Ends(links, met + {id}), depth)
  {
    GrewTwice(f, g, h, more, next, Ends(links, met), Ends(links, {id}), depth);
    EndsAdd(links, met, {id});
  }

  /** The loop over the claims at `current`. */
  method MeetEdges(claims: map<int, ClaimRow>, filter: Option<set<string>>, scope: string, walk: Walk,
                   current: string, depth: nat, f: Found)
    returns (g: Found, more: seq<(string, nat)>)
    requires Sound(f) && EndsMet(AdmittedLinks(claims, filter, scope, walk), f)
    ensures Sound(g) && EndsMet(AdmittedLinks(claims, filter, scope, walk), g)
    ensures var links := AdmittedLinks(claims, filter, scope, walk);
            && g.seenEdges == f.seenEdges + Touching(links, {current})
            && Grew(f, g, more, Ends(links, Touching(links, {current})), depth)
  {
    ghost var links := AdmittedLinks(claims, filter, scope, walk);
    var ids := EdgesAt(claims, current, scope, walk);
    g, more := f, [];
    ghost var met: set<int> := {};
    for k := 0 to |ids|
      invariant met == Kept(links, ids[..k])
      invariant Sound(g) && EndsMet(links, g) && g.seenEdges == f.seenEdges + met
      invariant Grew(f, g, more, Ends(links, met), depth)
    {
      var id := ids[k];
      assert id in ids && id in ActiveAt(claims, current, scope, walk);
      LinksAt(claims, filter, current, scope, walk, id);
      assert ids[..k + 1] == ids[..k] + [id];
      KeptNext(links, ids[..k], id);
      if !Passes(filter, claims[id]) { continue; }
      var h, next := MeetEdge(links, id, claims[id], depth, g);
      GrewByEdge(links, met, id, f, g, h, more, next, depth);
      g, more, met := h, more + next, met + {id};
    }
    assert ids[..|ids|] == ids;
    AllLinksMet(claims, filter, current, scope, walk, ids);
  }

  lemma AllLinksMet(claims: map<int, ClaimRow>, filter: Option<set<string>>, current: string, scope: string, walk: Walk,
                    ids: seq<int>)
    requires forall id :: id in ids <==> id in ActiveAt(claims, current, scope, walk)
    ensures Kept(AdmittedLinks(claims, filter, scope, walk), ids)
         == Touching(AdmittedLinks(claims, filter, scope, walk), {current})
  {
    forall id ensures id in ids && id in AdmittedLinks(claims, filter, scope, walk)
                 <==> id in Touching(AdmittedLinks(claims, filter, scope, walk), {current}) {
      LinksAt(claims, filter, current, scope, walk, id);
    }
  }

  // ----- one entry of the queue -----

  lemma VisitGathers(links: Links, entity: string, done: set<string>, f: Found, g: Found, current: string)
    requires Gathered(links, entity, done, f.seenNodes, f.seenEdges) && current in f.seenNodes
    requires g.seenEdges == f.seenEdges + Touching(links, {current})
    requires g.seenNodes == f.seenNodes + Ends(links, Touching(links, {current}))
    ensures Gathered(links, entity, done + {current}, g.seenNodes, g.seenEdges)
  {
    EndsAdd(links, f.seenEdges, Touching(links, {current}));
    assert g.seenEdges == Touching(links, done + {current});
  }

  lemma NamesSplit(a: seq<(string, nat)>, b: seq<(string, nat)>)
    ensures Names(a + b) == Names(a) + Names(b)
  {
    forall x ensures x in Names(a + b) <==> x in Names(a) + Names(b) {
      if x in Names(a) { var i :| 0 <= i < |a| && a[i].0 == x; assert (a + b)[i].0 == x; }
      if x in Names(b) { var i :| 0 <= i < |b| && b[i].0 == x; assert (a + b)[|a| + i].0 == x; }
    }
  }

  lemma VisitKeepsInside(links: Links, entity: string, d: nat, done: set<string>, seen: set<string>,
                         near: seq<(string, nat)>, far: seq<(string, nat)>, more: seq<(string, nat)>)
    requires near != [] && Inside(links, entity, d, done, seen, near, far) && Queued(more, d + 1, seen)
    ensures Inside(links, entity, d, done + {near[0].0}, seen + Names(more), near[1..], far + more)
  {
    assert near == [near[0]] + near[1..];
    NamesSplit([near[0]], near[1..]);
    NamesSplit(far, more);
    assert Names([near[0]]) == {near[0].0};
    forall i | 0 <= i < |far| ensures far[i].0 in seen { assert far[i].0 in Names(far); }
  }

  // ----- the loop -----

  /** Where the loop stands. At the last distance nothing more is met. */
  ghost predicate Standing(links: Links, entity: string, hops: nat, d: nat, done: set<string>, f: Found,
                           near: seq<(string, nat)>, far: seq<(string, nat)>) {
    && 0 < hops && d <= hops && Sound(f) && EndsMet(links, f)
    && (d < hops ==> Gathered(links, entity, done, f.seenNodes, f.seenEdges)
                     && Inside(links, entity, d, done, f.seenNodes, near, far))
    && (d == hops ==> Complete(links, entity, hops, f) && far == []
                      && forall i :: 0 <= i < |near| ==> near[i].1 == hops)
  }

  ghost predicate Complete(links: Links, entity: string, hops: nat, f: Found)
    requires hops > 0
  {
    f.seenNodes == Ball(links, entity, hops) && f.seenEdges == Touching(links, Ball(links, entity, hops - 1))
  }

  lemma StoppedAt(links: Links, entity: string, hops: nat, d: nat, f: Found)
    requires d < hops && f.seenNodes == Ball(links, entity, d) && f.seenNodes == Ball(links, entity, d + 1)
    requires f.seenEdges == Touching(links, f.seenNodes)
    ensures Complete(links, entity, hops, f)
  {
    SettledBalls(links, entity, d, hops, f.seenNodes);
  }

  lemma SettledBalls(links: Links, entity: string, d: nat, hops: nat, s: set<string>)
    requires d < hops && s == Ball(links, entity, d) && s == Ball(links, entity, d + 1)
    ensures Ball(links, entity, hops) == s && Ball(links, entity, hops - 1) == s
  {
    var last := hops - 1;
    SettledBall(links, entity, d, hops, s);
    SettledBall(links, entity, d, last, s);
  }

  lemma SettledBall(links: Links, entity: string, d: nat, k: nat, s: set<string>)
    requires d <= k && s == Ball(links, entity, d) && s == Ball(links, entity, d + 1)
    ensures Ball(links, entity, k) == s
  {
    BallStops(links, entity, d, k);
  }

  /** Nothing further out: the rest of the distances add nothing. */
  lemma NothingFurther(links: Links, entity: string, hops: nat, d: nat, done: set<string>, f: Found)
    requires d < hops && Gathered(links, entity, done, f.seenNodes, f.seenEdges)
    requires Inside(links, entity, d, done, f.seenNodes, [], [])
    ensures Complete(links, entity, hops, f)
  {
    LevelEnds(links, entity, d, done, f.seenNodes, f.seenEdges, []);
    StoppedAt(links, entity, hops, d, f);
  }

  /** A level read to its end gives way to the next. */
  lemma NextLevel(links: Links, entity: string, hops: nat, d: nat, done: set<string>, f: Found, far: seq<(string, nat)>)
    requires d < hops && Standing(links, entity, hops, d, done, f, [], far)
    ensures Standing(links, entity, hops, d + 1, done, f, far, [])
  {
    LevelEnds(links, entity, d, done, f.seenNodes, f.seenEdges, far);
  }

  /** An entry short of the last distance. */
  lemma VisitStands(links: Links, entity: string, hops: nat, d: nat, done: set<string>, f: Found, g: Found,
                    near: seq<(string, nat)>, far: seq<(string, nat)>, more: seq<(string, nat)>)
    requires d < hops && near != [] && Standing(links, entity, hops, d, done, f, near, far)
    requires Sound(g) && EndsMet(links, g) && g.seenEdges == f.seenEdges + Touching(links, {near[0].0})
    requires Grew(f, g, more, Ends(links, Touching(links, {near[0].0})), d + 1)
    ensures Standing(links, entity, hops, d, done + {near[0].0}, g, near[1..], far + more)
  {
    assert near[0].0 in Names(near);
    VisitGathers(links, entity, done, f, g, near[0].0);
    GrewNames(f, g, more, Ends(links, Touching(links, {near[0].0})), d + 1);
    VisitKeepsInside(links, entity, d, done, f.seenNodes, near, far, more);
  }

  lemma GrewNames(f: Found, g: Found, more: seq<(string, nat)>, xs: set<string>, depth: nat)
    requires Sound(f) && Sound(g) && Grew(f, g, more, xs, depth)
    ensures g.seenNodes == f.seenNodes + Names(more) && Queued(more, depth, f.seenNodes)
  {
    forall x ensures x in g.seenNodes <==> x in f.seenNodes + Names(more) {
      assert x in g.nodes <==> x in f.nodes || x in NameList(more);
      NamesAreListed(more, x);
    }
    NoNameTwice(f.nodes, more);
  }

  lemma NamesAreListed(queue: seq<(string, nat)>, x: string)
    ensures x in NameList(queue) <==> x in Names(queue)
  {
    if x in NameList(queue) {
      var i :| 0 <= i < |queue| && NameList(queue)[i] == x;
      assert queue[i].0 == x;
    }
  }

  lemma NoNameTwice(nodes: seq<string>, queue: seq<(string, nat)>)
    requires Distinct(nodes + NameList(queue))
    ensures forall i, j :: 0 <= i < j < |queue| ==> queue[i].0 != queue[j].0
  {
    var all := nodes + NameList(queue);
    forall i, j | 0 <= i < j < |queue| ensures queue[i].0 != queue[j].0 {
      assert all[|nodes| + i] == queue[i].0 && all[|nodes| + j] == queue[j].0;
    }
  }

  /** The loop's standing, told by the queue: its first `n` entries are near. */
  ghost predicate StandsAt(links: Links, entity: string, hops: nat, d: nat, n: nat, queue: seq<(string, nat)>,
                           f: Found) {
    d <= hops && n <= |queue| && exists done :: Standing(links, entity, hops, d, done, f, queue[..n], queue[n..])
  }

  lemma StandingAt(links: Links, entity: string, hops: nat, d: nat, done: set<string>, f: Found,
                   near: seq<(string, nat)>, far: seq<(string, nat)>)
    requires Standing(links, entity, hops, d, done, f, near, far)
    ensures StandsAt(links, entity, hops, d, |near|, near + far, f)
  {
    var queue := near + far;
    assert queue[..|near|] == near && queue[|near|..] == far;
  }

  lemma StartStands(links: Links, entity: string, hops: nat)
    requires hops > 0
    ensures StandsAt(links, entity, hops, 0, 1, [(entity, 0)], Found([entity], {entity}, [], {}))
  {
    var near := [(entity, 0)];
    assert near[0].0 == entity && Names(near) == {entity};
    assert near[..1] == near && near[1..] == [];
    assert Standing(links, entity, hops, 0, {}, Found([entity], {entity}, [], {}), near, []);
  }

  /** Before an entry is read, a level read to its end gives way to the next. */
  lemma Advance(links: Links, entity: string, hops: nat, d: nat, n: nat, queue: seq<(string, nat)>, f: Found)
    returns (d': nat, n': nat)
    requires StandsAt(links, entity, hops, d, n, queue, f) && queue != []
    ensures StandsAt(links, entity, hops, d', n', queue, f) && n' > 0 && queue[0].1 == d'
    ensures (d' == d && n' == n) || (n == 0 && d' == d + 1)
    ensures d' == hops ==> StandsAt(links, entity, hops, d', n' - 1, queue[1..], f)
  {
    var done :| Standing(links, entity, hops, d, done, f, queue[..n], queue[n..]);
    d', n' := d, n;
    if n == 0 {
      assert queue[..0] == [] && queue[0..] == queue && queue[..|queue|] == queue && queue[|queue|..] == [];
      NextLevel(links, entity, hops, d, done, f, queue);
      d', n' := d + 1, |queue|;
    }
    assert Standing(links, entity, hops, d', done, f, queue[..n'], queue[n'..]);
    if d' == hops {
      assert queue[1..][..n' - 1] == queue[..n'][1..] && queue[1..][n' - 1..] == queue[n'..];
      assert Standing(links, entity, hops, d', done, f, queue[1..][..n' - 1], queue[1..][n' - 1..]);
    }
  }

  lemma DoneAt(links: Links, entity: string, hops: nat, d: nat, n: nat, queue: seq<(string, nat)>, f: Found)
    returns (done: set<string>)
    requires StandsAt(links, entity, hops, d, n, queue, f)
    ensures Standing(links, entity, hops, d, done, f, queue[..n], queue[n..])
  {
    done :| Standing(links, entity, hops, d, done, f, queue[..n], queue[n..]);
  }

  lemma FoundIsSound(links: Links, entity: string, hops: nat, d: nat, n: nat, queue: seq<(string, nat)>, f: Found)
    requires StandsAt(links, entity, hops, d, n, queue, f)
    ensures Sound(f) && EndsMet(links, f)
  {
    var done := DoneAt(links, entity, hops, d, n, queue, f);
  }

  lemma QueueSplits(queue: seq<(string, nat)>, n: nat, more: seq<(string, nat)>)
    requires 0 < n <= |queue|
    ensures |queue[..n][1..]| == n - 1 && queue[..n][1..] + (queue[n..] + more) == queue[1..] + more
  {
  }

  lemma VisitStandsAt(links: Links, entity: string, hops: nat, d: nat, n: nat, queue: seq<(string, nat)>,
                      f: Found, g: Found, more: seq<(string, nat)>)
    requires 0 < n <= |queue| && d < hops && StandsAt(links, entity, hops, d, n, queue, f)
    requires Sound(g) && EndsMet(links, g) && g.seenEdges == f.seenEdges + Touching(links, {queue[0].0})
    requires Grew(f, g, more, Ends(links, Touching(links, {queue[0].0})), d + 1)
    ensures StandsAt(links, entity, hops, d, n - 1, queue[1..] + more, g)
  {
    var near, far := queue[..n], queue[n..];
    var done := DoneAt(links, entity, hops, d, n, queue, f);
    assert near[0] == queue[0];
    VisitStands(links, entity, hops, d, done, f, g, near, far, more);
    StandingAt(links, entity, hops, d, done + {near[0].0}, g, near[1..], far + more);
    QueueSplits(queue, n, more);
  }

  /** An entry short of the last distance. */
  method VisitEntry(claims: map<int, ClaimRow>, filter: Option<set<string>>, scope: string, walk: Walk,
                    ghost entity: string, ghost hops: nat, ghost n: nat, queue: seq<(string, nat)>, f: Found)
    returns (g: Found, next: seq<(string, nat)>)
    requires 0 < n <= |queue| && queue[0].1 < hops
    requires StandsAt(AdmittedLinks(claims, filter, scope, walk), entity, hops, queue[0].1, n, queue, f)
    ensures StandsAt(AdmittedLinks(claims, filter, scope, walk), entity, hops, queue[0].1, n - 1, next, g)
    ensures n - 1 <= |next|
  {
    ghost var links := AdmittedLinks(claims, filter, scope, walk);
    FoundIsSound(links, entity, hops, queue[0].1, n, queue, f);
    var more;
    g, more := MeetEdges(claims, filter, scope, walk, queue[0].0, queue[0].1 + 1, f);
    next := queue[1..] + more;
    VisitStandsAt(links, entity, hops, queue[0].1, n, queue, f, g, more);
  }

  lemma EndStands(links: Links, entity: string, hops: nat, d: nat, f: Found)
    requires StandsAt(links, entity, hops, d, 0, [], f)
    ensures Complete(links, entity, hops, f) && Sound(f)
  {
    var queue: seq<(string, nat)> := [];
    var done :| Standing(links, entity, hops, d, done, f, queue[..0], queue[0..]);
    assert queue[..0] == [] && queue[0..] == [];
    assert Standing(links, entity, hops, d, done, f, [], []);
    if d < hops { NothingFurther(links, entity, hops, d, done, f); }
  }

  /** The queue loop of expand_inner. */
  method Spread(claims: map<int, ClaimRow>, filter: Option<set<string>>, entity: string, hops: nat, scope: string,
                walk: Walk)
    returns (f: Found)
    requires hops > 0
    ensures Sound(f) && Complete(AdmittedLinks(claims, filter, scope, walk), entity, hops, f)
  {
    ghost var links := AdmittedLinks(claims, filter, scope, walk);
    f := Found([entity], {entity}, [], {});
    var queue := [(entity, 0)];
    ghost var d: nat, n: nat := 0, 1;
    StartStands(links, entity, hops);
    while queue != []
      invariant d <= hops && n <= |queue| && StandsAt(links, entity, hops, d, n, queue, f)
      decreases hops - d, n
    {
      d, n := Advance(links, entity, hops, d, n, queue, f);
      if queue[0].1 == hops {
        queue := queue[1..];
      } else {
        f, queue := VisitEntry(claims, filter, scope, walk, entity, hops, n, queue, f);
      }
      n := n - 1;
    }
    EndStands(links, entity, hops, d, f);
  }

  // ----- expand_inner -----

  /** The ends of the claims the query admits, in the ontology's own terms. */
  ghost function QueryLinks(core: ClaimTables, predicates: Option<seq<string>>, scope: string, walk: Walk): Links
    requires core.vocabulary.Valid()
  {
    map id | id in core.claims && core.claims[id].status == Active && Admits(scope, walk, core.claims[id].scope)
             && PredicateAdmitted(core.vocabulary, predicates, core.claims[id].predicate_)
      :: (core.claims[id].subject, core.claims[id].object_)
  }

  /** The entities within `hops` steps and the admitted claims at entities within one step less, each once. */
  ghost predicate Spans(links: Links, entity: string, hops: nat, e: Expansion)
    requires hops > 0
  {
    && Distinct(e.nodes) && Distinct(e.edges)
    && (forall x :: x in e.nodes <==> WithinSteps(links, entity, hops, x))
    && (forall id :: id in e.edges <==> TouchedWithin(links, entity, hops - 1, id))
  }

  ghost predicate WithinSteps(links: Links, entity: string, k: nat, x: string) {
    exists ids :: |ids| <= k && Walked(links, entity, ids, x)
  }

  ghost predicate TouchedWithin(links: Links, entity: string, k: nat, id: int) {
    id in links && (WithinSteps(links, entity, k, links[id].0) || WithinSteps(links, entity, k, links[id].1))
  }

  lemma CompleteSpans(links: Links, entity: string, hops: nat, f: Found)
    requires hops > 0 && Sound(f) && Complete(links, entity, hops, f)
    ensures Spans(links, entity, hops, Expansion(f.nodes, f.edges))
  {
    forall x ensures x in f.nodes <==> WithinSteps(links, entity, hops, x) {
      BallIsDistance(links, entity, hops, x);
    }
    forall id ensures id in f.edges <==> TouchedWithin(links, entity, hops - 1, id) {
      assert id in f.seenEdges <==> id in Touching(links, Ball(links, entity, hops - 1));
      LinkSpans(links, entity, hops - 1, id);
    }
  }

  lemma LinkSpans(links: Links, entity: string, k: nat, id: int)
    ensures id in Touching(links, Ball(links, entity, k)) <==> TouchedWithin(links, entity, k, id)
  {
    if id in links {
      BallIsDistance(links, entity, k, links[id].0);
      BallIsDistance(links, entity, k, links[id].1);
    }
  }

  lemma FilterLinks(core: ClaimTables, predicates: Option<seq<string>>, filter: Option<set<string>>, scope: string,
                    walk: Walk)
    requires core.vocabulary.Valid() && FilterOf(core.vocabulary, predicates, filter)
    ensures AdmittedLinks(core.claims, filter, scope, walk) == QueryLinks(core, predicates, scope, walk)
  {
    forall id | id in core.claims
      ensures Passes(filter, core.claims[id]) <==>
                PredicateAdmitted(core.vocabulary, predicates, core.claims[id].predicate_)
    {
      var name := core.claims[id].predicate_;
      assert filter.Some? ==> (name in filter.value <==> PredicateAdmitted(core.vocabulary, predicates, name));
    }
  }

  method ExpandInner(core: ClaimTables, entity: string, hops: nat, predicates: Option<seq<string>>,
                     scope: string, walk: Walk)
    returns (r: Result<Expansion, ExpandError>)
    requires core.vocabulary.Valid()
    ensures r.Err? <==>
              || Blank(entity) || hops == 0
              || (predicates.Some?
                  && (predicates.value == [] || exists name :: name in predicates.value && Blank(name)))
    ensures r.Err? ==> r.error == if Blank(entity) then InvalidGraphEntity
                                  else if hops == 0 then InvalidGraphHops else InvalidPredicateFilter
    ensures r.Ok? ==> Spans(QueryLinks(core, predicates, scope, walk), entity, hops, r.value)
  {
    if Blank(entity) { return Err(InvalidGraphEntity); }
    if hops == 0 { return Err(InvalidGraphHops); }
    BadFilterSays(predicates);
    if BadFilter(predicates) { return Err(InvalidPredicateFilter); }
    var filter := FilterFor(core.vocabulary, predicates);
    FilterLinks(core, predicates, filter, scope, walk);
    var f := Spread(core.claims, filter, entity, hops, scope, walk);
    CompleteSpans(QueryLinks(core, predicates, scope, walk), entity, hops, f);
    r := Ok(Expansion(f.nodes, f.edges));
  }

  /** expand_with_scope checks the scope first. */
  method ExpandWithScope(core: ClaimTables, entity: string, hops: nat, predicates: Option<seq<string>>,
                         scope: string, walk: Walk)
    returns (r: Result<Expansion, ExpandError>)
    requires core.vocabulary.Valid()
    ensures r.Err? <==>
              || !ValidScope(scope) || Blank(entity) || hops == 0
              || (predicates.Some?
                  && (predicates.value == [] || exists name :: name in predicates.value && Blank(name)))
    ensures !ValidScope(scope) ==> r == Err(InvalidScope)
    ensures r.Ok? ==> Spans(QueryLinks(core, predicates, scope, walk), entity, hops, r.value)
  {
    if !ValidScope(scope) { return Err(InvalidScope); }
    r := ExpandInner(core, entity, hops, predicates, scope, walk);
  }
}
