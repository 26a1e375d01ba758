/** Chains of admitted edges and the order of merit among them
    (crates/aver-core/src/graph.rs): the trails a level-order search meets, and the best of them. */
module Trails {
  import opened Prelude

  /** One admitted edge, in sorted order; `confidence` is its step's. */
  datatype Edge = Edge(from: string, to: string, sourceId: int, kindOrder: nat, confidence: real)

  /** A queue entry: where it stands, the entities visited, the positions of the edges
      taken and the product of their confidences. */
  datatype Trail = Trail(entity: string, entities: seq<string>, picks: seq<nat>, confidence: real)

  // ----- chains: what a path is -----

  function Init<T>(s: seq<T>): seq<T> requires s != [] { s[..|s| - 1] }

  function Last<T>(s: seq<T>): T requires s != [] { s[|s| - 1] }

  /** The entity where the picked edges lead. */
  function End(edges: seq<Edge>, source: string, picks: seq<nat>): string {
    if picks != [] && Last(picks) < |edges| then edges[Last(picks)].to else source
  }

  /** Each picked edge starts where the one before it ends. */
  ghost predicate Chain(edges: seq<Edge>, source: string, picks: seq<nat>)
    decreases |picks|
  {
    picks == [] || (Last(picks) < |edges| && edges[Last(picks)].from == End(edges, source, Init(picks))
                    && Chain(edges, source, Init(picks)))
  }

  ghost predicate Joins(edges: seq<Edge>, source: string, target: string, picks: seq<nat>) {
    Chain(edges, source, picks) && End(edges, source, picks) == target
  }

  /** The entities along the way, both ends included. */
  function Visits(edges: seq<Edge>, source: string, picks: seq<nat>): (v: seq<string>)
    ensures |v| == |picks| + 1 && Last(v) == End(edges, source, picks)
    decreases |picks|
  {
    if picks == [] then [source] else Visits(edges, source, Init(picks)) + [End(edges, source, picks)]
  }

  function Product(edges: seq<Edge>, picks: seq<nat>): real
    decreases |picks|
  {
    if picks == [] then 1.0
    else Product(edges, Init(picks)) * if Last(picks) < |edges| then edges[Last(picks)].confidence else 1.0
  }

  function TrailOf(edges: seq<Edge>, source: string, picks: seq<nat>): Trail {
    Trail(End(edges, source, picks), Visits(edges, source, picks), picks, Product(edges, picks))
  }

  predicate NatLe(x: nat, y: nat) { x <= y }

  /** The order of merit: fewer hops, then the larger product of confidences, then the lesser
      entity path, then the edges that come earlier in sorted order. */
  ghost predicate AtLeastAsGood(a: Trail, b: Trail) {
    || |a.picks| < |b.picks|
    || (|a.picks| == |b.picks| && NotBeaten(a, b))
  }

  ghost predicate NotBeaten(a: Trail, b: Trail) {
    || a.confidence > b.confidence
    || (a.confidence == b.confidence && a.entities != b.entities && LexLe(StringLe, a.entities, b.entities))
    || (a.confidence == b.confidence && a.entities == b.entities && LexLe(NatLe, a.picks, b.picks))
  }

  /** A chain that visits no entity twice. */
  ghost predicate Simple(edges: seq<Edge>, source: string, picks: seq<nat>) {
    Chain(edges, source, picks) && Distinct(Visits(edges, source, picks))
  }

  // ----- the levels the queue runs through -----

  predicate Takes(edges: seq<Edge>, t: Trail, e: nat)
    requires e < |edges|
  {
    edges[e].from == t.entity && edges[e].to !in t.entities
  }

  function Grow(edges: seq<Edge>, t: Trail, e: nat): Trail
    requires e < |edges|
  {
    Trail(edges[e].to, t.entities + [edges[e].to], t.picks + [e], t.confidence * edges[e].confidence)
  }

  /** The trails that edges before `e` lead to from `t`: those at the target, or the others. */
  ghost function Children(edges: seq<Edge>, target: string, hit: bool, t: Trail, e: nat): seq<Trail>
    requires e <= |edges|
  {
    if e == 0 then []
    else Children(edges, target, hit, t, e - 1)
         + if Takes(edges, t, e - 1) && (edges[e - 1].to == target <==> hit) then [Grow(edges, t, e - 1)] else []
  }

  ghost function AllChildren(edges: seq<Edge>, target: string, hit: bool, ts: seq<Trail>): seq<Trail>
    decreases |ts|
  {
    if ts == [] then []
    else AllChildren(edges, target, hit, Init(ts)) + Children(edges, target, hit, Last(ts), |edges|)
  }

  /** The trails of `k` edges that have not met the target, in queue order. */
  ghost function Level(edges: seq<Edge>, source: string, target: string, k: nat): seq<Trail>
  {
    if k == 0 then [Trail(source, [source], [], 1.0)]
    else AllChildren(edges, target, false, Level(edges, source, target, k - 1))
  }

  // ----- the running best -----

  predicate Replaces(a: Trail, b: Trail) {
    a.confidence > b.confidence
    || (a.confidence == b.confidence && a.entities != b.entities && LexLe(StringLe, a.entities, b.entities))
  }

  function Better(best: Option<Trail>, t: Trail): Option<Trail> {
    if best.None? || Replaces(t, best.value) then Some(t) else best
  }

  ghost function Best(hits: seq<Trail>): Option<Trail>
    decreases |hits|
  {
    if hits == [] then None else Better(Best(Init(hits)), Last(hits))
  }

  lemma BestSnoc(hits: seq<Trail>, t: Trail)
    ensures Best(hits + [t]) == Better(Best(hits), t)
  {
    assert (hits + [t])[..|hits|] == hits;
  }

  lemma BestOfSome(hits: seq<Trail>)
    ensures Best(hits).None? <==> hits == []
  {
  }

  // ----- what the levels hold -----

  lemma DistinctSnoc<T>(s: seq<T>, x: T)
    ensures Distinct(s + [x]) <==> Distinct(s) && x !in s
  {
    if Distinct(s + [x]) {
      assert forall i :: 0 <= i < |s| ==> (s + [x])[i] == s[i];
      assert (s + [x])[|s|] == x;
    }
  }

  /** Taking an edge lengthens the chain by that pick. */
  lemma {:induction false} Snoc(edges: seq<Edge>, source: string, picks: seq<nat>, e: nat)
    requires e < |edges|
    ensures Simple(edges, source, picks + [e]) <==>
              Simple(edges, source, picks) && Takes(edges, TrailOf(edges, source, picks), e)
    ensures Grow(edges, TrailOf(edges, source, picks), e) == TrailOf(edges, source, picks + [e])
  {
    assert Init(picks + [e]) == picks;
    DistinctSnoc(Visits(edges, source, picks), edges[e].to);
  }

  /** The k-th level holds exactly the simple chains of k edges that have not met the target. */
  ghost predicate Open(edges: seq<Edge>, source: string, target: string, k: nat, t: Trail) {
    |t.picks| == k && Simple(edges, source, t.picks) && t == TrailOf(edges, source, t.picks) && target !in t.entities
  }

  ghost predicate Reaches(edges: seq<Edge>, source: string, target: string, k: nat, t: Trail) {
    && |t.picks| == k && Simple(edges, source, t.picks) && t == TrailOf(edges, source, t.picks)
    && End(edges, source, t.picks) == target
  }

  ghost predicate GrownBy(edges: seq<Edge>, target: string, hit: bool, t: Trail, d: nat, x: Trail) {
    && d < |edges| && Takes(edges, t, d) && x == Grow(edges, t, d)
    && (edges[d].to == target <==> hit)
  }

  lemma {:induction false} ChildrenIn(edges: seq<Edge>, target: string, hit: bool, t: Trail, d: nat, e: nat)
    requires d < e <= |edges| && GrownBy(edges, target, hit, t, d, Grow(edges, t, d))
    ensures Grow(edges, t, d) in Children(edges, target, hit, t, e)
  {
    if d < e - 1 { ChildrenIn(edges, target, hit, t, d, e - 1); }
  }

  /** The edge behind a child. */
  lemma {:induction false} ChildOf(edges: seq<Edge>, target: string, hit: bool, t: Trail, e: nat, x: Trail)
    returns (d: nat)
    requires e <= |edges| && x in Children(edges, target, hit, t, e)
    ensures d < e && GrownBy(edges, target, hit, t, d, x)
  {
    if x in Children(edges, target, hit, t, e - 1) {
      d := ChildOf(edges, target, hit, t, e - 1, x);
    } else {
      d := e - 1;
    }
  }

  lemma {:induction false} AllChildrenIn(edges: seq<Edge>, target: string, hit: bool, ts: seq<Trail>, x: Trail)
    ensures x in AllChildren(edges, target, hit, ts) <==>
              exists i :: 0 <= i < |ts| && x in Children(edges, target, hit, ts[i], |edges|)
    decreases |ts|
  {
    if ts != [] {
      AllChildrenIn(edges, target, hit, Init(ts), x);
      assert forall i :: 0 <= i < |ts| - 1 ==> Init(ts)[i] == ts[i];
    }
  }

  lemma {:induction false} LevelSound(edges: seq<Edge>, source: string, target: string, k: nat, t: Trail)
    requires source != target && t in Level(edges, source, target, k)
    ensures Open(edges, source, target, k, t)
    decreases k
  {
    if k > 0 {
      var level := Level(edges, source, target, k - 1);
      AllChildrenIn(edges, target, false, level, t);
      var i :| 0 <= i < |level| && t in Children(edges, target, false, level[i], |edges|);
      LevelSound(edges, source, target, k - 1, level[i]);
      var d := ChildOf(edges, target, false, level[i], |edges|, t);
      ChildOpen(edges, source, target, k - 1, level[i], d, t);
    }
  }

  lemma ChildOpen(edges: seq<Edge>, source: string, target: string, k: nat, parent: Trail, d: nat, t: Trail)
    requires Open(edges, source, target, k, parent) && GrownBy(edges, target, false, parent, d, t)
    ensures Open(edges, source, target, k + 1, t)
  {
    Snoc(edges, source, parent.picks, d);
  }

  lemma {:induction false} LevelComplete(edges: seq<Edge>, source: string, target: string, k: nat, t: Trail)
    requires Open(edges, source, target, k, t)
    ensures t in Level(edges, source, target, k)
    decreases k
  {
    if k > 0 {
      var d, before := Last(t.picks), TrailOf(edges, source, Init(t.picks));
      Regrow(edges, source, t.picks);
      assert t.entities == before.entities + [edges[d].to];
      LevelComplete(edges, source, target, k - 1, before);
      assert GrownBy(edges, target, false, before, d, t);
      ChildrenIn(edges, target, false, before, d, |edges|);
      AllChildrenIn(edges, target, false, Level(edges, source, target, k - 1), t);
    }
  }

  /** A simple chain is its own beginning, grown by its last edge. */
  lemma Regrow(edges: seq<Edge>, source: string, picks: seq<nat>)
    requires picks != [] && Simple(edges, source, picks)
    ensures Last(picks) < |edges| && Simple(edges, source, Init(picks))
    ensures Takes(edges, TrailOf(edges, source, Init(picks)), Last(picks))
    ensures TrailOf(edges, source, picks) == Grow(edges, TrailOf(edges, source, Init(picks)), Last(picks))
  {
    assert Init(picks) + [Last(picks)] == picks;
    Snoc(edges, source, Init(picks), Last(picks));
  }

  lemma {:induction false} HitsSound(edges: seq<Edge>, source: string, target: string, k: nat, t: Trail)
    requires source != target && t in AllChildren(edges, target, true, Level(edges, source, target, k))
    ensures Reaches(edges, source, target, k + 1, t)
  {
    var level := Level(edges, source, target, k);
    AllChildrenIn(edges, target, true, level, t);
    var i :| 0 <= i < |level| && t in Children(edges, target, true, level[i], |edges|);
    LevelSound(edges, source, target, k, level[i]);
    var d := ChildOf(edges, target, true, level[i], |edges|, t);
    Snoc(edges, source, level[i].picks, d);
  }

  lemma {:induction false} HitsComplete(edges: seq<Edge>, source: string, target: string, k: nat, t: Trail)
    requires Reaches(edges, source, target, k + 1, t)
    ensures t in AllChildren(edges, target, true, Level(edges, source, target, k))
  {
    var d, before := Last(t.picks), TrailOf(edges, source, Init(t.picks));
    Regrow(edges, source, t.picks);
    assert edges[d].to == target;
    LevelComplete(edges, source, target, k, before);
    assert GrownBy(edges, target, true, before, d, t);
    ChildrenIn(edges, target, true, before, d, |edges|);
    AllChildrenIn(edges, target, true, Level(edges, source, target, k), t);
  }

  // ----- the queue order is the order of the picks -----

  lemma {:induction false} LexAppend(a: seq<nat>, b: seq<nat>, x: seq<nat>, y: seq<nat>)
    requires |a| == |b| && a != b && LexLe(NatLe, a, b)
    ensures LexLe(NatLe, a + x, b + y) && a + x != b + y
  {
    assert (a + x)[..|a|] == a && (b + y)[..|a|] == b;
    if a[0] == b[0] {
      assert a == [a[0]] + a[1..] && b == [b[0]] + b[1..];
      assert (a + x)[1..] == a[1..] + x && (b + y)[1..] == b[1..] + y;
      LexAppend(a[1..], b[1..], x, y);
    }
  }

  lemma {:induction false} LexPrefix(a: seq<nat>, x: nat, y: nat)
    requires x <= y
    ensures LexLe(NatLe, a + [x], a + [y])
  {
    if a != [] {
      assert (a + [x])[1..] == a[1..] + [x] && (a + [y])[1..] == a[1..] + [y];
      LexPrefix(a[1..], x, y);
    }
  }

  ghost predicate Earlier(s: Trail, t: Trail) {
    s.picks != t.picks && LexLe(NatLe, s.picks, t.picks)
  }

  ghost predicate InOrder(ts: seq<Trail>) {
    forall i, j :: 0 <= i < j < |ts| ==> Earlier(ts[i], ts[j])
  }

  ghost predicate AllOfLength(ts: seq<Trail>, k: nat) {
    forall j :: 0 <= j < |ts| ==> |ts[j].picks| == k
  }

  lemma {:induction false} ChildrenInOrder(edges: seq<Edge>, target: string, hit: bool, t: Trail, e: nat)
    requires e <= |edges|
    ensures InOrder(Children(edges, target, hit, t, e))
            && AllOfLength(Children(edges, target, hit, t, e), |t.picks| + 1)
  {
    if e > 0 {
      ChildrenInOrder(edges, target, hit, t, e - 1);
      var before := Children(edges, target, hit, t, e - 1);
      forall i | 0 <= i < |before| ensures Earlier(before[i], Grow(edges, t, e - 1)) {
        var d := ChildOf(edges, target, hit, t, e - 1, before[i]);
        LexPrefix(t.picks, d, e - 1);
        assert Last(before[i].picks) == d;
      }
    }
  }

  lemma {:induction false} AllChildrenInOrder(edges: seq<Edge>, target: string, hit: bool, ts: seq<Trail>, k: nat)
    requires InOrder(ts) && AllOfLength(ts, k)
    ensures InOrder(AllChildren(edges, target, hit, ts)) && AllOfLength(AllChildren(edges, target, hit, ts), k + 1)
    decreases |ts|
  {
    if ts != [] {
      AllChildrenInOrder(edges, target, hit, Init(ts), k);
      ChildrenInOrder(edges, target, hit, Last(ts), |edges|);
      var before, after := AllChildren(edges, target, hit, Init(ts)), Children(edges, target, hit, Last(ts), |edges|);
      forall i, j | 0 <= i < |before| && 0 <= j < |after| ensures Earlier(before[i], after[j]) {
        AllChildrenIn(edges, target, hit, Init(ts), before[i]);
        var h :| 0 <= h < |ts| - 1 && before[i] in Children(edges, target, hit, Init(ts)[h], |edges|);
        ChildrenOfEarlier(edges, target, hit, ts[h], Last(ts), before[i], after[j]);
      }
    }
  }

  lemma ChildrenOfEarlier(edges: seq<Edge>, target: string, hit: bool, s: Trail, t: Trail, x: Trail, y: Trail)
    requires Earlier(s, t) && |s.picks| == |t.picks|
    requires x in Children(edges, target, hit, s, |edges|) && y in Children(edges, target, hit, t, |edges|)
    ensures Earlier(x, y)
  {
    var d := ChildOf(edges, target, hit, s, |edges|, x);
    var e := ChildOf(edges, target, hit, t, |edges|, y);
    LexAppend(s.picks, t.picks, [d], [e]);
  }

  lemma {:induction false} LevelInOrder(edges: seq<Edge>, source: string, target: string, k: nat)
    ensures InOrder(Level(edges, source, target, k)) && AllOfLength(Level(edges, source, target, k), k)
    decreases k
  {
    if k > 0 {
      LevelInOrder(edges, source, target, k - 1);
      AllChildrenInOrder(edges, target, false, Level(edges, source, target, k - 1), k - 1);
    }
  }

  // ----- the running best is the best -----

  lemma NotBeatenTransitive(a: Trail, b: Trail, c: Trail)
    requires NotBeaten(a, b) && NotBeaten(b, c)
    ensures NotBeaten(a, c)
  {
    StringsAreOrdered();
    if a.confidence == c.confidence {
      if a.entities == b.entities == c.entities {
        LexTransitive(NatLe, a.picks, b.picks, c.picks);
      } else {
        LexReflexive(StringLe, b.entities);
        LexTransitive(StringLe, a.entities, b.entities, c.entities);
        if a.entities == c.entities { LexAntisymmetric(StringLe, a.entities, b.entities); }
      }
    }
  }

  /** One of the hits, and beaten by none. */
  ghost predicate Tops(best: Trail, hits: seq<Trail>) {
    best in hits && forall h :: h in hits ==> NotBeaten(best, h)
  }

  lemma BestIsNotBeaten(hits: seq<Trail>)
    requires hits != [] && InOrder(hits)
    ensures Best(hits).Some? && Best(hits).value in hits
    ensures forall h :: h in hits ==> NotBeaten(Best(hits).value, h)
  {
    BestTops(hits);
  }

  lemma {:induction false} BestTops(hits: seq<Trail>)
    requires hits != [] && InOrder(hits)
    ensures Best(hits).Some? && Tops(Best(hits).value, hits)
    decreases |hits|
  {
    var front, t, best := Init(hits), Last(hits), Best(hits).value;
    assert hits == front + [t];
    if front != [] {
      InitInOrder(hits);
      BestTops(front);
      LastComesLater(hits, Best(front).value);
      OneHitMore(front, Best(front).value, t, best, hits);
    } else {
      OnlyHit(hits, t);
    }
  }

  lemma InitInOrder(hits: seq<Trail>)
    requires hits != [] && InOrder(hits)
    ensures InOrder(Init(hits))
  {
  }

  lemma OnlyHit(hits: seq<Trail>, t: Trail)
    requires hits == [t]
    ensures Best(hits) == Some(t) && Tops(t, hits)
  {
    assert Init(hits) == [];
    NotBeatenReflexive(t);
  }

  lemma NotBeatenReflexive(t: Trail)
    ensures NotBeaten(t, t)
  {
    LexReflexive(NatLe, t.picks);
  }

  lemma LastComesLater(hits: seq<Trail>, best: Trail)
    requires hits != [] && InOrder(hits) && best in Init(hits)
    ensures Earlier(best, Last(hits))
  {
    var i :| 0 <= i < |hits| - 1 && Init(hits)[i] == best;
    assert hits[i] == best;
  }

  lemma OneHitMore(front: seq<Trail>, best: Trail, t: Trail, next: Trail, hits: seq<Trail>)
    requires Tops(best, front) && Earlier(best, t)
    requires hits == front + [t] && next == if Replaces(t, best) then t else best
    ensures Tops(next, hits)
  {
    LastAgainstBest(best, t);
    NotBeatenReflexive(t);
    if Replaces(t, best) {
      forall h | h in front ensures NotBeaten(t, h) { NotBeatenTransitive(t, best, h); }
    }
  }

  lemma LastAgainstBest(best: Trail, t: Trail)
    requires Earlier(best, t)
    ensures if Replaces(t, best) then NotBeaten(t, best) else NotBeaten(best, t)
  {
    StringsAreOrdered();
    LexTotal(StringLe, best.entities, t.entities);
  }

  // ----- a chain that visits an entity twice has a shortcut -----

  lemma {:induction false} ChainSplits(edges: seq<Edge>, source: string, a: seq<nat>, b: seq<nat>)
    ensures Chain(edges, source, a + b) <==> Chain(edges, source, a) && Chain(edges, End(edges, source, a), b)
    ensures Chain(edges, source, a + b) ==> End(edges, source, a + b) == End(edges, End(edges, source, a), b)
    decreases |b|
  {
    if b == [] {
      assert a + b == a;
    } else {
      assert Init(a + b) == a + Init(b);
      ChainSplits(edges, source, a, Init(b));
    }
  }

  lemma {:induction false} VisitIsEnd(edges: seq<Edge>, source: string, picks: seq<nat>, i: nat)
    requires i <= |picks|
    ensures Visits(edges, source, picks)[i] == End(edges, source, picks[..i])
    decreases |picks|
  {
    if i < |picks| {
      VisitIsEnd(edges, source, Init(picks), i);
      assert Init(picks)[..i] == picks[..i];
    } else {
      assert picks[..i] == picks;
    }
  }

  lemma Shortcut(edges: seq<Edge>, source: string, target: string, picks: seq<nat>) returns (shorter: seq<nat>)
    requires Joins(edges, source, target, picks) && !Simple(edges, source, picks)
    ensures Joins(edges, source, target, shorter) && |shorter| < |picks|
  {
    var v := Visits(edges, source, picks);
    var i, j :| 0 <= i < j < |v| && v[i] == v[j];
    VisitIsEnd(edges, source, picks, i);
    VisitIsEnd(edges, source, picks, j);
    assert picks == picks[..i] + picks[i..] && picks == picks[..j] + picks[j..];
    ChainSplits(edges, source, picks[..i], picks[i..]);
    ChainSplits(edges, source, picks[..j], picks[j..]);
    shorter := picks[..i] + picks[j..];
    ChainSplits(edges, source, picks[..i], picks[j..]);
  }

  /** Whatever a chain joins, a simple chain joins, and a shorter one unless the chain is simple itself. */
  lemma {:induction false} SimpleChain(edges: seq<Edge>, source: string, target: string, picks: seq<nat>)
    returns (simple: seq<nat>)
    requires Joins(edges, source, target, picks)
    ensures Joins(edges, source, target, simple) && Simple(edges, source, simple)
    ensures simple == picks || |simple| < |picks|
    decreases |picks|
  {
    if Simple(edges, source, picks) {
      simple := picks;
    } else {
      var shorter := Shortcut(edges, source, target, picks);
      simple := SimpleChain(edges, source, target, shorter);
    }
  }
}
