/** Shortest paths over claims and hyperedges (crates/aver-core/src/graph.rs): a level-order
    search without a global visited set, and the optimum it returns. */
module GraphPath {
  import opened Prelude
  import opened Trails

  // ----- the search -----

  /** None of the first `k` levels leads to the target. */
  ghost predicate NoHitsBefore(edges: seq<Edge>, source: string, target: string, k: nat) {
    k > 0 ==>
      && NoHitsBefore(edges, source, target, k - 1)
      && AllChildren(edges, target, true, Level(edges, source, target, k - 1)) == []
  }

  lemma {:induction false} NoHitsAt(edges: seq<Edge>, source: string, target: string, k: nat, j: nat)
    requires NoHitsBefore(edges, source, target, k) && j < k
    ensures AllChildren(edges, target, true, Level(edges, source, target, j)) == []
  {
    if j < k - 1 { NoHitsAt(edges, source, target, k - 1, j); }
  }

  /** What the search has established when it stops. */
  ghost predicate Settled(edges: seq<Edge>, source: string, target: string, maxHops: nat, best: Option<Trail>) {
    if best.None? then NoHitsBefore(edges, source, target, maxHops)
    else exists k: nat :: k < maxHops && NoHitsBefore(edges, source, target, k)
           && best == Best(AllChildren(edges, target, true, Level(edges, source, target, k)))
  }

  lemma {:induction false} EmptyLevelsStayEmpty(edges: seq<Edge>, source: string, target: string, k: nat, j: nat)
    requires Level(edges, source, target, k) == [] && k <= j
    ensures Level(edges, source, target, j) == []
  {
    if k < j { EmptyLevelsStayEmpty(edges, source, target, k, j - 1); }
  }

  /** One queue entry: its edges in sorted order, hits compared, the others queued. */
  method Visiting(edges: seq<Edge>, target: string, t: Trail, queue: seq<Trail>, best: Option<Trail>,
                  ghost hits: seq<Trail>)
    returns (newQueue: seq<Trail>, newBest: Option<Trail>)
    requires best == Best(hits)
    ensures newQueue == queue + Children(edges, target, false, t, |edges|)
    ensures newBest == Best(hits + Children(edges, target, true, t, |edges|))
    ensures best.Some? ==> newBest.Some?
  {
    HitsAccumulate(hits, Children(edges, target, true, t, |edges|));
    newQueue, newBest := queue, best;
    assert hits + [] == hits && queue + [] == queue;
    for e := 0 to |edges|
      invariant newQueue == queue + Children(edges, target, false, t, e)
      invariant newBest == Best(hits + Children(edges, target, true, t, e))
    {
      assert Children(edges, target, true, t, e + 1) == Children(edges, target, true, t, e)
        + if Takes(edges, t, e) && edges[e].to == target then [Grow(edges, t, e)] else [];
      if edges[e].from == t.entity {
        if edges[e].to in t.entities {
          assert hits + Children(edges, target, true, t, e + 1) == hits + Children(edges, target, true, t, e);
          continue;
        }
        var next := Grow(edges, t, e);
        if edges[e].to == target {
          BestSnoc(hits + Children(edges, target, true, t, e), next);
          assert hits + Children(edges, target, true, t, e) + [next] == hits + Children(edges, target, true, t, e + 1);
          newBest := Better(newBest, next);
        } else {
          assert hits + Children(edges, target, true, t, e + 1) == hits + Children(edges, target, true, t, e);
          newQueue := newQueue + [next];
        }
      } else {
        assert hits + Children(edges, target, true, t, e + 1) == hits + Children(edges, target, true, t, e);
      }
    }
  }

  lemma HitsAccumulate(hits: seq<Trail>, more: seq<Trail>)
    ensures Best(hits).Some? ==> Best(hits + more).Some?
  {
    BestOfSome(hits);
    BestOfSome(hits + more);
  }

  /** The queue holds what is left of the level, then what the level led to so far. */
  ghost predicate Within(edges: seq<Edge>, target: string, level: seq<Trail>, i: nat,
                         queue: seq<Trail>, best: Option<Trail>) {
    && i <= |level|
    && queue == level[i..] + AllChildren(edges, target, false, level[..i])
    && best == Best(AllChildren(edges, target, true, level[..i]))
  }

  lemma LevelStart(edges: seq<Edge>, target: string, level: seq<Trail>)
    ensures Within(edges, target, level, 0, level, None)
  {
    assert level[..0] == [] && level[0..] == level;
  }

  lemma LevelStep(edges: seq<Edge>, target: string, level: seq<Trail>, i: nat, queue: seq<Trail>, best: Option<Trail>)
    requires Within(edges, target, level, i, queue, best) && i < |level|
    ensures queue != [] && queue[0] == level[i]
    ensures Within(edges, target, level, i + 1, queue[1..] + Children(edges, target, false, level[i], |edges|),
                   Best(AllChildren(edges, target, true, level[..i])
                     + Children(edges, target, true, level[i], |edges|)))
  {
    assert Init(level[..i + 1]) == level[..i] && Last(level[..i + 1]) == level[i];
    var onward := AllChildren(edges, target, false, level[..i]);
    assert queue[1..] == level[i + 1..] + onward;
    assert AllChildren(edges, target, false, level[..i + 1]) ==
             onward + Children(edges, target, false, level[i], |edges|);
  }

  lemma LevelEnd(edges: seq<Edge>, target: string, level: seq<Trail>, queue: seq<Trail>, best: Option<Trail>)
    requires Within(edges, target, level, |level|, queue, best)
    ensures queue == AllChildren(edges, target, false, level) && best == Best(AllChildren(edges, target, true, level))
    ensures best.None? <==> AllChildren(edges, target, true, level) == []
  {
    assert level[..|level|] == level && level[|level|..] == [];
    BestOfSome(AllChildren(edges, target, true, level));
  }

  /** Entries the loop skips. */
  predicate Skipped(t: Trail, shortest: Option<nat>, maxHops: nat) {
    (shortest.Some? && |t.picks| >= shortest.value) || |t.picks| == maxHops
  }

  lemma NextLevelHits(edges: seq<Edge>, source: string, target: string, k: nat)
    requires NoHitsBefore(edges, source, target, k)
    ensures AllChildren(edges, target, true, Level(edges, source, target, k)) == [] ==>
              NoHitsBefore(edges, source, target, k + 1)
  {
  }

  lemma {:induction false} EmptyLevelSettles(edges: seq<Edge>, source: string, target: string, k: nat, n: nat)
    requires NoHitsBefore(edges, source, target, k + 1) && Level(edges, source, target, k + 1) == []
    requires k < n
    ensures NoHitsBefore(edges, source, target, n)
  {
    if k + 1 < n {
      EmptyLevelSettles(edges, source, target, k, n - 1);
      EmptyLevelsStayEmpty(edges, source, target, k + 1, n - 1);
    }
  }

  /** `level` is the k-th level, no earlier one had a hit, and the hop limit is not reached. */
  ghost predicate At(edges: seq<Edge>, source: string, target: string, maxHops: nat, k: nat, level: seq<Trail>) {
    && level == Level(edges, source, target, k) && k < maxHops
    && NoHitsBefore(edges, source, target, k)
    && AllOfLength(level, k)
  }

  ghost predicate AllSkipped(queue: seq<Trail>, shortest: Option<nat>, maxHops: nat) {
    forall j :: 0 <= j < |queue| ==> Skipped(queue[j], shortest, maxHops)
  }

  lemma AtNext(edges: seq<Edge>, source: string, target: string, maxHops: nat, k: nat, level: seq<Trail>,
               queue: seq<Trail>, best: Option<Trail>)
    requires At(edges, source, target, maxHops, k, level) && Within(edges, target, level, |level|, queue, best)
    ensures best.Some? ==> Settled(edges, source, target, maxHops, best) && AllSkipped(queue, Some(k + 1), maxHops)
    ensures best.None? && k + 1 == maxHops ==>
              Settled(edges, source, target, maxHops, best) && AllSkipped(queue, None, maxHops)
    ensures best.None? && k + 1 < maxHops ==> At(edges, source, target, maxHops, k + 1, queue)
    ensures queue == [] ==> Settled(edges, source, target, maxHops, best)
  {
    LevelEnd(edges, target, level, queue, best);
    LevelInOrder(edges, source, target, k + 1);
    assert queue == Level(edges, source, target, k + 1);
    if best.None? {
      NextLevelHits(edges, source, target, k);
      if queue == [] { EmptyLevelSettles(edges, source, target, k, maxHops); }
    }
  }

  /** Where the loop stands: inside level `k`, `i` entries of it taken. */
  ghost predicate Mid(edges: seq<Edge>, source: string, target: string, maxHops: nat, k: nat, level: seq<Trail>,
                      i: nat, queue: seq<Trail>, best: Option<Trail>, shortest: Option<nat>) {
    && At(edges, source, target, maxHops, k, level) && Within(edges, target, level, i, queue, best)
    && (shortest.None? ==> best.None?)
    && (shortest.Some? ==> best.Some? && shortest.value == k + 1)
  }

  /** Where it stands once only entries it skips are left. */
  ghost predicate Done(edges: seq<Edge>, source: string, target: string, maxHops: nat,
                       queue: seq<Trail>, best: Option<Trail>, shortest: Option<nat>) {
    Settled(edges, source, target, maxHops, best) && AllSkipped(queue, shortest, maxHops)
  }

  datatype Place = Draining | Inside(k: nat, level: seq<Trail>, i: nat)

  lemma MidStep(edges: seq<Edge>, source: string, target: string, maxHops: nat, k: nat, level: seq<Trail>,
                i: nat, queue: seq<Trail>, best: Option<Trail>, shortest: Option<nat>)
    requires Mid(edges, source, target, maxHops, k, level, i, queue, best, shortest) && i < |level|
    ensures queue != [] && queue[0] == level[i] && |queue[0].picks| == k
    ensures !Skipped(queue[0], shortest, maxHops)
    ensures best == Best(AllChildren(edges, target, true, level[..i]))
  {
    LevelStep(edges, target, level, i, queue, best);
  }

  lemma MidNext(edges: seq<Edge>, source: string, target: string, maxHops: nat, k: nat, level: seq<Trail>,
                i: nat, queue: seq<Trail>, best: Option<Trail>, shortest: Option<nat>,
                newQueue: seq<Trail>, newBest: Option<Trail>, newShortest: Option<nat>)
    requires Mid(edges, source, target, maxHops, k, level, i, queue, best, shortest) && i < |level|
    requires queue != [] && newQueue == queue[1..] + Children(edges, target, false, level[i], |edges|)
    requires newBest ==
               Best(AllChildren(edges, target, true, level[..i]) + Children(edges, target, true, level[i], |edges|))
    requires newShortest == if newBest.Some? then Some(k + 1) else shortest
    ensures Mid(edges, source, target, maxHops, k, level, i + 1, newQueue, newBest, newShortest)
  {
    LevelStep(edges, target, level, i, queue, best);
    HitsAccumulate(AllChildren(edges, target, true, level[..i]), Children(edges, target, true, level[i], |edges|));
  }

  /** Where the loop stands: inside a level, or draining. */
  ghost predicate Standing(edges: seq<Edge>, source: string, target: string, maxHops: nat, at: Place,
                           queue: seq<Trail>, best: Option<Trail>, shortest: Option<nat>) {
    if at.Draining? then Done(edges, source, target, maxHops, queue, best, shortest)
    else at.i <= |at.level| && Mid(edges, source, target, maxHops, at.k, at.level, at.i, queue, best, shortest)
  }

  lemma LevelOver(edges: seq<Edge>, source: string, target: string, maxHops: nat, at: Place,
                  queue: seq<Trail>, best: Option<Trail>, shortest: Option<nat>)
    requires at.Inside? && at.i == |at.level| && Standing(edges, source, target, maxHops, at, queue, best, shortest)
    ensures if best.None? && at.k + 1 < maxHops && queue != []
            then Mid(edges, source, target, maxHops, at.k + 1, queue, 0, queue, best, shortest)
            else Done(edges, source, target, maxHops, queue, best, shortest)
  {
    AtNext(edges, source, target, maxHops, at.k, at.level, queue, best);
    LevelStart(edges, target, queue);
  }

  /** A level read to its end gives way to the next, or to draining. */
  ghost function NextPlace(maxHops: nat, at: Place, queue: seq<Trail>, best: Option<Trail>): Place {
    if at.Draining? || at.i < |at.level| then at
    else if best.None? && at.k + 1 < maxHops && queue != [] then Inside(at.k + 1, queue, 0)
    else Draining
  }

  lemma NextPlaceStands(edges: seq<Edge>, source: string, target: string, maxHops: nat, at: Place,
                        queue: seq<Trail>, best: Option<Trail>, shortest: Option<nat>)
    requires Standing(edges, source, target, maxHops, at, queue, best, shortest)
    ensures var next := NextPlace(maxHops, at, queue, best);
            && Standing(edges, source, target, maxHops, next, queue, best, shortest)
            && (queue != [] && next.Inside? ==> next.i < |next.level|)
            && (next == at || next.Draining? || (at.Inside? && next.Inside? && at.k < next.k < maxHops))
            && (queue == [] ==> next.Draining?)
  {
    if at.Inside? && at.i == |at.level| {
      LevelOver(edges, source, target, maxHops, at, queue, best, shortest);
    } else if at.Inside? {
      InsideHasEntries(edges, source, target, maxHops, at, queue, best, shortest);
      assert NextPlace(maxHops, at, queue, best) == at;
    }
  }

  lemma InsideHasEntries(edges: seq<Edge>, source: string, target: string, maxHops: nat, at: Place,
                         queue: seq<Trail>, best: Option<Trail>, shortest: Option<nat>)
    requires at.Inside? && at.i < |at.level| && Standing(edges, source, target, maxHops, at, queue, best, shortest)
    ensures queue != []
  {
    MidStep(edges, source, target, maxHops, at.k, at.level, at.i, queue, best, shortest);
  }

  /** One turn of the queue loop at an entry that is not skipped. */
  method Turn(edges: seq<Edge>, source: string, target: string, maxHops: nat, ghost k: nat, ghost level: seq<Trail>,
              ghost i: nat, queue: seq<Trail>, best: Option<Trail>, shortest: Option<nat>)
    returns (newQueue: seq<Trail>, newBest: Option<Trail>, newShortest: Option<nat>)
    requires Mid(edges, source, target, maxHops, k, level, i, queue, best, shortest) && i < |level|
    requires queue != []
    ensures Mid(edges, source, target, maxHops, k, level, i + 1, newQueue, newBest, newShortest)
  {
    MidStep(edges, source, target, maxHops, k, level, i, queue, best, shortest);
    var t := queue[0];
    newQueue, newBest := Visiting(edges, target, t, queue[1..], best, AllChildren(edges, target, true, level[..i]));
    newShortest := if newBest.Some? then Some(|t.picks| + 1) else shortest;
    MidNext(edges, source, target, maxHops, k, level, i, queue, best, shortest, newQueue, newBest, newShortest);
  }

  lemma EntriesSkipped(edges: seq<Edge>, source: string, target: string, maxHops: nat, at: Place,
                       queue: seq<Trail>, best: Option<Trail>, shortest: Option<nat>)
    requires Standing(edges, source, target, maxHops, at, queue, best, shortest)
    requires queue != [] && (at.Inside? ==> at.i < |at.level|)
    ensures Skipped(queue[0], shortest, maxHops) <==> at.Draining?
    ensures at.Draining? ==> Standing(edges, source, target, maxHops, at, queue[1..], best, shortest)
  {
    if at.Inside? { MidStep(edges, source, target, maxHops, at.k, at.level, at.i, queue, best, shortest); }
  }

  /** The queue loop of graph_path. It ends though it keeps no global visited set. */
  method Search(edges: seq<Edge>, source: string, target: string, maxHops: nat) returns (best: Option<Trail>)
    requires maxHops > 0
    ensures Settled(edges, source, target, maxHops, best)
  {
    best := None;
    var queue := [Trail(source, [source], [], 1.0)];
    var shortest: Option<nat> := None;
    LevelStart(edges, target, queue);
    ghost var at := Inside(0, queue, 0);
    while queue != []
      invariant Standing(edges, source, target, maxHops, at, queue, best, shortest)
      decreases if at.Draining? then 0 else 1, if at.Inside? then maxHops - at.k else 0,
                if at.Inside? then |at.level| - at.i else 0, |queue|
    {
      NextPlaceStands(edges, source, target, maxHops, at, queue, best, shortest);
      at := NextPlace(maxHops, at, queue, best);
      EntriesSkipped(edges, source, target, maxHops, at, queue, best, shortest);
      if Skipped(queue[0], shortest, maxHops) {
        queue := queue[1..];
        continue;
      }
      queue, best, shortest := Turn(edges, source, target, maxHops, at.k, at.level, at.i, queue, best, shortest);
      at := at.(i := at.i + 1);
    }
    NextPlaceStands(edges, source, target, maxHops, at, queue, best, shortest);
    at := NextPlace(maxHops, at, queue, best);
  }

  // ----- what the search promises -----

  lemma NoShortChains(edges: seq<Edge>, source: string, target: string, k: nat, picks: seq<nat>)
    requires source != target && NoHitsBefore(edges, source, target, k) && Joins(edges, source, target, picks)
    ensures |picks| > k
  {
    if |picks| <= k {
      var simple := SimpleChain(edges, source, target, picks);
      assert simple != [];
      HitsComplete(edges, source, target, |simple| - 1, TrailOf(edges, source, simple));
      NoHitsAt(edges, source, target, k, |simple| - 1);
    }
  }

  /** The search settles exactly the question asked: no chain within the limit, or the best one. */
  lemma SettledIsOptimal(edges: seq<Edge>, source: string, target: string, maxHops: nat, best: Option<Trail>)
    requires source != target && Settled(edges, source, target, maxHops, best)
    ensures best.None? <==> forall picks :: Joins(edges, source, target, picks) ==> |picks| > maxHops
    ensures best.Some? ==>
              && Joins(edges, source, target, best.value.picks) && |best.value.picks| <= maxHops
              && best.value == TrailOf(edges, source, best.value.picks)
              && forall picks | Joins(edges, source, target, picks) ::
                   AtLeastAsGood(best.value, TrailOf(edges, source, picks))
  {
    if best.None? {
      forall picks | Joins(edges, source, target, picks) ensures |picks| > maxHops {
        NoShortChains(edges, source, target, maxHops, picks);
      }
    } else {
      var k: nat :| k < maxHops && NoHitsBefore(edges, source, target, k)
                    && best == Best(AllChildren(edges, target, true, Level(edges, source, target, k)));
      BestOfLevel(edges, source, target, k);
      forall picks | Joins(edges, source, target, picks)
        ensures AtLeastAsGood(best.value, TrailOf(edges, source, picks))
      {
        NoShortChains(edges, source, target, k, picks);
        if |picks| == k + 1 { BestAgainst(edges, source, target, k, best.value, picks); }
      }
    }
  }

  lemma BestOfLevel(edges: seq<Edge>, source: string, target: string, k: nat)
    requires source != target && Best(AllChildren(edges, target, true, Level(edges, source, target, k))).Some?
    ensures var hits := AllChildren(edges, target, true, Level(edges, source, target, k));
            && Reaches(edges, source, target, k + 1, Best(hits).value)
            && forall h :: h in hits ==> NotBeaten(Best(hits).value, h)
  {
    var hits := AllChildren(edges, target, true, Level(edges, source, target, k));
    BestOfSome(hits);
    LevelInOrder(edges, source, target, k);
    AllChildrenInOrder(edges, target, true, Level(edges, source, target, k), k);
    BestIsNotBeaten(hits);
    HitsSound(edges, source, target, k, Best(hits).value);
  }

  lemma BestAgainst(edges: seq<Edge>, source: string, target: string, k: nat, best: Trail, picks: seq<nat>)
    requires source != target && NoHitsBefore(edges, source, target, k)
    requires forall h :: h in AllChildren(edges, target, true, Level(edges, source, target, k)) ==> NotBeaten(best, h)
    requires Joins(edges, source, target, picks) && |picks| == k + 1
    ensures NotBeaten(best, TrailOf(edges, source, picks))
  {
    var simple := SimpleChain(edges, source, target, picks);
    NoShortChains(edges, source, target, k, simple);
    HitsComplete(edges, source, target, k, TrailOf(edges, source, picks));
  }

  // ----- the product is not the minimum -----

  function MinOf(edges: seq<Edge>, picks: seq<nat>): real
    decreases |picks|
  {
    if picks == [] then 1.0
    else
      var rest := MinOf(edges, Init(picks));
      var last := if Last(picks) < |edges| then edges[Last(picks)].confidence else 1.0;
      if last < rest then last else rest
  }

  ghost predicate Optimum(edges: seq<Edge>, source: string, target: string, maxHops: nat, a: seq<nat>) {
    && Joins(edges, source, target, a) && |a| <= maxHops
    && forall b | Joins(edges, source, target, b) :: AtLeastAsGood(TrailOf(edges, source, a), TrailOf(edges, source, b))
  }

  ghost predicate ConfidencesIn(edges: seq<Edge>) {
    forall i :: 0 <= i < |edges| ==> 0.0 <= edges[i].confidence <= 1.0
  }

  /** The optimum also has the highest minimum confidence among the shortest chains. */
  ghost predicate MinimumToo(edges: seq<Edge>, source: string, target: string, a: seq<nat>) {
    forall b: seq<nat> | Joins(edges, source, target, b) && |b| == |a| :: MinOf(edges, a) >= MinOf(edges, b)
  }

  ghost predicate MinimumAlways(maxHops: nat) {
    forall edges, source, target, a: seq<nat> |
      source != target && ConfidencesIn(edges) && Optimum(edges, source, target, maxHops, a) ::
      MinimumToo(edges, source, target, a)
  }

  /** Ranking by the product and by the minimum come to the same on every edge set exactly when a single hop
      is allowed: the documentation's reading differs from the code's from two hops on. */
  lemma MinimumOnlyForOneHop(maxHops: nat)
    ensures MinimumAlways(maxHops) <==> maxHops <= 1
  {
    if maxHops <= 1 {
      forall edges, source, target, a: seq<nat> |
        source != target && ConfidencesIn(edges) && Optimum(edges, source, target, maxHops, a)
        ensures MinimumToo(edges, source, target, a)
      {
        forall b: seq<nat> | Joins(edges, source, target, b) && |b| == |a| ensures MinOf(edges, a) >= MinOf(edges, b) {
          OneHopMinimum(edges, source, target, a, b);
        }
      }
    } else {
      var edges := TwoRoutes();
      TwoRoutesOptimum(edges, maxHops);
      TwoRoutesValues(edges);
      assert !MinimumToo(edges, "s", "t", [2, 3]);
    }
  }

  lemma OneHopMinimum(edges: seq<Edge>, source: string, target: string, a: seq<nat>, b: seq<nat>)
    requires source != target && ConfidencesIn(edges) && Optimum(edges, source, target, 1, a)
    requires Joins(edges, source, target, b) && |b| == |a|
    ensures MinOf(edges, a) >= MinOf(edges, b)
  {
    assert |a| == 1;
    OneHopProduct(edges, source, a);
    OneHopProduct(edges, source, b);
    BetterProduct(edges, source, target, 1, a, b);
  }

  lemma BetterProduct(edges: seq<Edge>, source: string, target: string, maxHops: nat, a: seq<nat>, b: seq<nat>)
    requires Optimum(edges, source, target, maxHops, a) && Joins(edges, source, target, b) && |b| == |a|
    ensures Product(edges, a) >= Product(edges, b)
  {
    assert AtLeastAsGood(TrailOf(edges, source, a), TrailOf(edges, source, b));
  }

  lemma OneHopProduct(edges: seq<Edge>, source: string, picks: seq<nat>)
    requires ConfidencesIn(edges) && Chain(edges, source, picks) && |picks| == 1
    ensures Product(edges, picks) == MinOf(edges, picks) == edges[picks[0]].confidence
  {
    assert Init(picks) == [] && Last(picks) == picks[0];
  }

  /** s to t over a with confidences 0.5 and 0.5, or over b with 1.0 and 0.4. */
  function TwoRoutes(): seq<Edge> {
    [Edge("s", "a", 1, 0, 0.5), Edge("a", "t", 2, 0, 0.5), Edge("s", "b", 3, 0, 1.0), Edge("b", "t", 4, 0, 0.4)]
  }

  lemma TwoRoutesValues(edges: seq<Edge>)
    requires edges == TwoRoutes()
    ensures Joins(edges, "s", "t", [0, 1]) && Product(edges, [0, 1]) == 0.25 && MinOf(edges, [0, 1]) == 0.5
    ensures Joins(edges, "s", "t", [2, 3]) && Product(edges, [2, 3]) == 0.4 && MinOf(edges, [2, 3]) == 0.4
  {
    assert Init([0, 1]) == [0] && Init([2, 3]) == [2] && Init([0]) == [] && Init([2]) == [];
    assert Last([0, 1]) == 1 && Last([2, 3]) == 3 && Last([0]) == 0 && Last([2]) == 2;
  }

  lemma TwoRoutesOptimum(edges: seq<Edge>, maxHops: nat)
    requires edges == TwoRoutes() && maxHops >= 2
    ensures Optimum(edges, "s", "t", maxHops, [2, 3])
  {
    TwoRoutesValues(edges);
    forall b | Joins(edges, "s", "t", b)
      ensures AtLeastAsGood(TrailOf(edges, "s", [2, 3]), TrailOf(edges, "s", b))
    {
      TwoRoutesChains(edges, b);
      if b == [2, 3] { LexReflexive(NatLe, b); }
    }
  }

  lemma TwoRoutesChains(edges: seq<Edge>, b: seq<nat>)
    requires edges == TwoRoutes() && Joins(edges, "s", "t", b)
    ensures |b| > 2 || b == [0, 1] || b == [2, 3]
  {
    assert b != [];
    var last := Last(b);
    assert last == 1 || last == 3;
    if |b| <= 2 {
      var rest := Init(b);
      assert End(edges, "s", rest) == edges[last].from != "s";
      assert |rest| == 1 && (Last(rest) == 0 || Last(rest) == 2);
      assert b == [Last(rest), last];
    }
  }
}
