/** Coverage of a session's events by observations, the ranges a compaction summary
    reports, and what a prune drops (crates/aver-core/src/episodic.rs). */
module Compaction {
  import opened Prelude
  import opened Projection

  /** list_events_for_session, by id. */
  function SessionEvents(t: EventTables, session: string): (ids: seq<int>)
    ensures StrictlySorted(IntLe, ids)
    ensures forall id :: id in ids <==> id in t.events && t.events[id].sessionId == session
  {
    SortSet(IntLe, set id | id in t.events && t.events[id].sessionId == session)
  }

  function PrunedIds(t: ObservationTables, session: string): set<string> {
    set m, id | m in t.markers && t.markers[m].sessionId == session && id in t.markers[m].prunedIds :: id
  }

  /** list_observations_for_session, as a set: a marker hides what it lists. */
  function Visible(t: ObservationTables, session: string): set<string> {
    set id | id in t.observations && t.observations[id].sessionId == session && id !in PrunedIds(t, session)
  }

  /** The events some visible observation of the session cites. */
  function CoveredIds(t: ObservationTables, session: string): set<int> {
    set id, e | id in Visible(t, session) && e in t.observations[id].sourceEventIds :: e
  }

  /** A stable split of a listing by membership, as Iterator::partition does it. */
  method Partition(ids: seq<int>, members: set<int>) returns (inside: seq<int>, outside: seq<int>)
    requires StrictlySorted(IntLe, ids)
    ensures forall id :: id in inside <==> id in ids && id in members
    ensures forall id :: id in outside <==> id in ids && id !in members
    ensures |inside| + |outside| == |ids|
    ensures StrictlySorted(IntLe, inside) && StrictlySorted(IntLe, outside)
  {
    inside, outside := [], [];
    for i := 0 to |ids|
      invariant forall id :: id in inside <==> id in ids[..i] && id in members
      invariant forall id :: id in outside <==> id in ids[..i] && id !in members
      invariant |inside| + |outside| == i
      invariant StrictlySorted(IntLe, inside) && StrictlySorted(IntLe, outside)
    {
      assert ids[..i + 1] == ids[..i] + [ids[i]];
      assert forall id :: id in ids[..i] ==> id < ids[i];
      assert forall k :: 0 <= k < |inside| ==> inside[k] in inside;
      assert forall k :: 0 <= k < |outside| ==> outside[k] in outside;
      if ids[i] in members {
        inside := inside + [ids[i]];
      } else {
        outside := outside + [ids[i]];
      }
    }
    assert ids[..|ids|] == ids;
  }

  datatype Coverage = Coverage(eventIds: seq<int>, covered: seq<int>, uncovered: seq<int>)

  /** observation_coverage: covered and uncovered events partition the session's events. */
  method ObservationCoverage(e: EventTables, t: ObservationTables, session: string) returns (c: Coverage)
    ensures c.eventIds == SessionEvents(e, session)
    ensures forall id :: id in c.covered <==> id in c.eventIds && id in CoveredIds(t, session)
    ensures forall id :: id in c.uncovered <==> id in c.eventIds && id !in CoveredIds(t, session)
    ensures |c.covered| + |c.uncovered| == |c.eventIds|
    ensures StrictlySorted(IntLe, c.covered) && StrictlySorted(IntLe, c.uncovered)
  {
    var ids := SessionEvents(e, session);
    var covered, uncovered := Partition(ids, CoveredIds(t, session));
    c := Coverage(ids, covered, uncovered);
  }

  /** The positions from..to hold one run of members with no member next to either end. */
  ghost predicate MaximalRun(ids: seq<int>, members: set<int>, from: nat, to: nat) {
    && from <= to < |ids|
    && (forall k :: from <= k <= to ==> ids[k] in members)
    && (from > 0 ==> ids[from - 1] !in members)
    && (to + 1 < |ids| ==> ids[to + 1] !in members)
  }

  /** Maximal runs before place `i`, in order and apart; `spans` are the places where they start and end. */
  ghost predicate Closed(ids: seq<int>, uncovered: set<int>, i: nat, ranges: seq<(int, int)>, spans: seq<(nat, nat)>) {
    && |spans| == |ranges|
    && (forall k :: 0 <= k < |ranges| ==> RangeAt(ids, uncovered, i, ranges[k], spans[k]))
    && (forall j, k :: 0 <= j < k < |spans| ==> spans[j].1 + 1 < spans[k].0)
  }

  ghost predicate RangeAt(ids: seq<int>, uncovered: set<int>, i: nat, range: (int, int), span: (nat, nat)) {
    span.1 < i && MaximalRun(ids, uncovered, span.0, span.1) && range == (ids[span.0], ids[span.1])
  }

  ghost predicate InSpans(spans: seq<(nat, nat)>, p: nat) {
    exists k :: 0 <= k < |spans| && spans[k].0 <= p <= spans[k].1
  }

  ghost predicate Groups(ids: seq<int>, uncovered: set<int>, ranges: seq<(int, int)>, spans: seq<(nat, nat)>) {
    && Closed(ids, uncovered, |ids|, ranges, spans)
    && forall p: nat :: p < |ids| && ids[p] in uncovered ==> InSpans(spans, p)
  }

  /** The closed runs among the first `i` events, and the run still open at its end, from place `from`. */
  ghost predicate GroupsUpTo(ids: seq<int>, uncovered: set<int>, i: nat, ranges: seq<(int, int)>,
                             spans: seq<(nat, nat)>,
                             run: Option<(int, int)>, from: nat)
    requires i <= |ids|
  {
    && Closed(ids, uncovered, i, ranges, spans)
    && (forall p: nat :: p < i && ids[p] in uncovered ==> (run.Some? && from <= p) || InSpans(spans, p))
    && (if run.Some?
        then OpenRun(ids, uncovered, i, run.value, from) && forall k :: 0 <= k < |spans| ==> spans[k].1 + 1 < from
        else i > 0 ==> ids[i - 1] !in uncovered)
  }

  ghost predicate OpenRun(ids: seq<int>, uncovered: set<int>, i: nat, run: (int, int), from: nat)
    requires i <= |ids|
  {
    && from < i && run == (ids[from], ids[i - 1])
    && (forall k :: from <= k < i ==> ids[k] in uncovered)
    && (from > 0 ==> ids[from - 1] !in uncovered)
  }

  /** An event that is covered, or the end, closes the open run. */
  lemma CloseRun(ids: seq<int>, uncovered: set<int>, i: nat, ranges: seq<(int, int)>, spans: seq<(nat, nat)>,
                 run: (int, int), from: nat)
    requires i <= |ids| && GroupsUpTo(ids, uncovered, i, ranges, spans, Some(run), from)
    requires i < |ids| ==> ids[i] !in uncovered
    ensures Closed(ids, uncovered, i, ranges + [run], spans + [(from, i - 1)])
    ensures forall p: nat :: p < i && ids[p] in uncovered ==> InSpans(spans + [(from, i - 1)], p)
  {
    var closed := spans + [(from, i - 1)];
    OneMoreRange(ids, uncovered, i, ranges, spans, run, (from, i - 1));
    forall p: nat | p < i && ids[p] in uncovered ensures InSpans(closed, p) {
      if from <= p {
        assert closed[|spans|].0 <= p <= closed[|spans|].1;
      } else {
        var k :| 0 <= k < |spans| && spans[k].0 <= p <= spans[k].1;
        assert closed[k].0 <= p <= closed[k].1;
      }
    }
  }

  lemma OneMoreRange(ids: seq<int>, uncovered: set<int>, i: nat, ranges: seq<(int, int)>, spans: seq<(nat, nat)>,
                     range: (int, int), span: (nat, nat))
    requires i <= |ids| && Closed(ids, uncovered, i, ranges, spans) && RangeAt(ids, uncovered, i, range, span)
    requires forall k :: 0 <= k < |spans| ==> spans[k].1 + 1 < span.0
    ensures Closed(ids, uncovered, i, ranges + [range], spans + [span])
  {
  }

  lemma LaterStaysClosed(ids: seq<int>, uncovered: set<int>, i: nat, j: nat, ranges: seq<(int, int)>,
                         spans: seq<(nat, nat)>)
    requires Closed(ids, uncovered, i, ranges, spans) && i <= j
    ensures Closed(ids, uncovered, j, ranges, spans)
  {
    assert forall k :: 0 <= k < |ranges| ==>
        RangeAt(ids, uncovered, i, ranges[k], spans[k]) && RangeAt(ids, uncovered, j, ranges[k], spans[k]);
  }

  lemma ExtendRun(ids: seq<int>, uncovered: set<int>, i: nat, ranges: seq<(int, int)>, spans: seq<(nat, nat)>,
                  run: Option<(int, int)>, from: nat)
    requires i < |ids| && ids[i] in uncovered && GroupsUpTo(ids, uncovered, i, ranges, spans, run, from)
    ensures GroupsUpTo(ids, uncovered, i + 1, ranges, spans, Some((if run.Some? then run.value.0 else ids[i], ids[i])),
                       if run.Some? then from else i)
  {
    LaterStaysClosed(ids, uncovered, i, i + 1, ranges, spans);
    if run.None? {
      forall k | 0 <= k < |spans| ensures spans[k].1 + 1 < i {
        assert RangeAt(ids, uncovered, i, ranges[k], spans[k]);
        assert ids[spans[k].1] in uncovered;
      }
    }
  }

  lemma CoveredEvent(ids: seq<int>, uncovered: set<int>, i: nat, ranges: seq<(int, int)>, spans: seq<(nat, nat)>,
                     run: Option<(int, int)>, from: nat)
    requires i < |ids| && ids[i] !in uncovered && GroupsUpTo(ids, uncovered, i, ranges, spans, run, from)
    ensures run.Some? ==>
              i > 0 && GroupsUpTo(ids, uncovered, i + 1, ranges + [run.value], spans + [(from, i - 1)], None, from)
    ensures run.None? ==> GroupsUpTo(ids, uncovered, i + 1, ranges, spans, None, from)
  {
    if run.Some? {
      CloseRun(ids, uncovered, i, ranges, spans, run.value, from);
      LaterStaysClosed(ids, uncovered, i, i + 1, ranges + [run.value], spans + [(from, i - 1)]);
    } else {
      LaterStaysClosed(ids, uncovered, i, i + 1, ranges, spans);
    }
  }

  /** What the loop knows after `i` events. */
  ghost predicate Grouped(ids: seq<int>, uncovered: set<int>, i: nat, ranges: seq<(int, int)>, run: Option<(int, int)>)
    requires i <= |ids|
  {
    exists spans: seq<(nat, nat)>, from: nat :: GroupsUpTo(ids, uncovered, i, ranges, spans, run, from)
  }

  lemma GroupedBy(ids: seq<int>, uncovered: set<int>, i: nat, ranges: seq<(int, int)>, spans: seq<(nat, nat)>,
                  run: Option<(int, int)>, from: nat)
    requires i <= |ids| && GroupsUpTo(ids, uncovered, i, ranges, spans, run, from)
    ensures Grouped(ids, uncovered, i, ranges, run)
  {
  }

  lemma LastRun(ids: seq<int>, uncovered: set<int>, ranges: seq<(int, int)>, run: Option<(int, int)>,
                all: seq<(int, int)>)
    requires Grouped(ids, uncovered, |ids|, ranges, run)
    requires all == if run.Some? then ranges + [run.value] else ranges
    ensures exists s :: Groups(ids, uncovered, all, s)
  {
    var spans: seq<(nat, nat)>, from: nat :| GroupsUpTo(ids, uncovered, |ids|, ranges, spans, run, from);
    var closed := RunsEnd(ids, uncovered, ranges, spans, run, from);
  }

  lemma RunsEnd(ids: seq<int>, uncovered: set<int>, ranges: seq<(int, int)>, spans: seq<(nat, nat)>,
                run: Option<(int, int)>, from: nat) returns (closed: seq<(nat, nat)>)
    requires GroupsUpTo(ids, uncovered, |ids|, ranges, spans, run, from)
    ensures Groups(ids, uncovered, if run.Some? then ranges + [run.value] else ranges, closed)
  {
    closed := spans;
    if run.Some? {
      CloseRun(ids, uncovered, |ids|, ranges, spans, run.value, from);
      closed := spans + [(from, |ids| - 1)];
    }
  }

  lemma NextEvent(ids: seq<int>, uncovered: set<int>, i: nat, ranges: seq<(int, int)>, run: Option<(int, int)>)
    requires i < |ids| && Grouped(ids, uncovered, i, ranges, run)
    ensures ids[i] in uncovered ==>
              Grouped(ids, uncovered, i + 1, ranges, Some((if run.Some? then run.value.0 else ids[i], ids[i])))
    ensures ids[i] !in uncovered ==>
              Grouped(ids, uncovered, i + 1, if run.Some? then ranges + [run.value] else ranges, None)
  {
    var spans: seq<(nat, nat)>, from: nat :| GroupsUpTo(ids, uncovered, i, ranges, spans, run, from);
    EventTaken(ids, uncovered, i, ranges, spans, run, from);
  }

  lemma EventTaken(ids: seq<int>, uncovered: set<int>, i: nat, ranges: seq<(int, int)>, spans: seq<(nat, nat)>,
                   run: Option<(int, int)>, from: nat)
    requires i < |ids| && GroupsUpTo(ids, uncovered, i, ranges, spans, run, from)
    ensures ids[i] in uncovered ==>
              Grouped(ids, uncovered, i + 1, ranges, Some((if run.Some? then run.value.0 else ids[i], ids[i])))
    ensures ids[i] !in uncovered ==>
              Grouped(ids, uncovered, i + 1, if run.Some? then ranges + [run.value] else ranges, None)
  {
    var next := i + 1;
    if ids[i] in uncovered {
      var open, start := Some((if run.Some? then run.value.0 else ids[i], ids[i])), if run.Some? then from else i;
      ExtendRun(ids, uncovered, i, ranges, spans, run, from);
      GroupedBy(ids, uncovered, next, ranges, spans, open, start);
    } else {
      CoveredEvent(ids, uncovered, i, ranges, spans, run, from);
      if run.Some? {
        GroupedBy(ids, uncovered, next, ranges + [run.value], spans + [(from, i - 1)], None, from);
      } else {
        GroupedBy(ids, uncovered, next, ranges, spans, None, from);
      }
    }
  }

  /** The ranges are exactly the maximal runs of uncovered events, counting neighbours by position in the
      session, in order; every uncovered event is in one. */
  method UncoveredRanges(ids: seq<int>, uncovered: set<int>) returns (ranges: seq<(int, int)>)
    ensures exists spans :: Groups(ids, uncovered, ranges, spans)
  {
    ranges := [];
    var run: Option<(int, int)> := None;
    assert GroupsUpTo(ids, uncovered, 0, ranges, [], run, 0);
    for i := 0 to |ids|
      invariant Grouped(ids, uncovered, i, ranges, run)
    {
      NextEvent(ids, uncovered, i, ranges, run);
      if ids[i] in uncovered {
        run := Some((if run.Some? then run.value.0 else ids[i], ids[i]));
      } else if run.Some? {
        ranges, run := ranges + [run.value], None;
      }
    }
    LastRun(ids, uncovered, ranges, run, if run.Some? then ranges + [run.value] else ranges);
    if run.Some? {
      ranges := ranges + [run.value];
    }
  }

  // ----- pruning -----

  function Rank(relevance: string): nat {
    if relevance == "critical" then 3
    else if relevance == "high" then 2
    else if relevance == "medium" then 1
    else 0
  }

  function RankOf(t: ObservationTables, id: string): nat {
    if id in t.observations then Rank(t.observations[id].relevance) else 0
  }

  function TimeOf(t: ObservationTables, id: string): int {
    if id in t.observations then t.observations[id].ts else 0
  }

  /** The prune order: relevance, then time, then id; the front goes first. */
  predicate PruneLe(t: ObservationTables, a: string, b: string) {
    if RankOf(t, a) != RankOf(t, b) then RankOf(t, a) < RankOf(t, b)
    else if TimeOf(t, a) != TimeOf(t, b) then TimeOf(t, a) < TimeOf(t, b)
    else StringLe(a, b)
  }

  lemma PruneOrderIsTotal(t: ObservationTables)
    ensures TotalOrder((a, b) => PruneLe(t, a, b))
  {
    StringsAreOrdered();
    var le := (a, b) => PruneLe(t, a, b);
    forall x, y, z | le(x, y) && le(y, z) ensures le(x, z) {
      assert StringLe(x, y) && StringLe(y, z) ==> StringLe(x, z);
    }
  }

  /** What prune_observations writes to its marker: nothing unless the session has more than
      `keep` visible observations and no uncovered event. */
  function PruneChoice(e: EventTables, t: ObservationTables, session: string, keep: nat): (drop: seq<string>)
    ensures drop != [] ==> forall id | id in SessionEvents(e, session) :: id in CoveredIds(t, session)
    ensures drop != [] ==> |drop| + keep == |Visible(t, session)|
  {
    var visible := Visible(t, session);
    if |visible| <= keep then []
    else if exists id | id in SessionEvents(e, session) :: id !in CoveredIds(t, session) then []
    else
      PruneOrderIsTotal(t);
      SortSet((a, b) => PruneLe(t, a, b), visible)[..|visible| - keep]
  }

  lemma PruneDropsTheFront(e: EventTables, t: ObservationTables, session: string, keep: nat)
    ensures var drop := PruneChoice(e, t, session, keep);
            && Distinct(drop)
            && (drop != [] <==> |Visible(t, session)| > keep
                                && forall id | id in SessionEvents(e, session) :: id in CoveredIds(t, session))
            && (drop != [] ==> |drop| + keep == |Visible(t, session)|)
            && (forall id :: id in drop ==> id in Visible(t, session))
            && forall a, b :: a in drop && b in Visible(t, session) && b !in drop ==> PruneLe(t, a, b)
  {
    var drop := PruneChoice(e, t, session, keep);
    if drop != [] {
      PruneOrderIsTotal(t);
      var le := (a, b) => PruneLe(t, a, b);
      var sorted := SortSet(le, Visible(t, session));
      FrontIsFirst(le, sorted, drop);
      assert forall a :: a in drop ==> a in sorted;
    }
  }

  /** The first `n` of a sorted list come before the others. */
  lemma FrontIsFirst<T(!new)>(le: (T, T) -> bool, sorted: seq<T>, front: seq<T>)
    requires StrictlySorted(le, sorted) && front <= sorted
    ensures Distinct(front) && forall a, b :: a in front && b in sorted && b !in front ==> le(a, b)
  {
    forall a, b | a in front && b in sorted && b !in front ensures le(a, b) {
      var i :| 0 <= i < |front| && front[i] == a;
      var j :| 0 <= j < |sorted| && sorted[j] == b;
      assert front[i] == sorted[i];
    }
  }

  function WithMarker(t: ObservationTables, markerId: string, row: MarkerRow): ObservationTables {
    t.(markers := t.markers[markerId := row])
  }

  lemma MarkerHidesItsIds(t: ObservationTables, markerId: string, row: MarkerRow, session: string)
    requires markerId !in t.markers
    ensures Visible(WithMarker(t, markerId, row), session)
         == Visible(t, session) - (if session == row.sessionId then set id | id in row.prunedIds else {})
  {
    var after := WithMarker(t, markerId, row);
    forall id ensures id in PrunedIds(after, session)
                 <==> id in PrunedIds(t, session) || (session == row.sessionId && id in row.prunedIds) {
      if id in PrunedIds(t, session) {
        var m :| m in t.markers && t.markers[m].sessionId == session && id in t.markers[m].prunedIds;
        assert after.markers[m] == t.markers[m];
      }
      if session == row.sessionId && id in row.prunedIds {
        assert id in after.markers[markerId].prunedIds;
      }
    }
  }

  /** After the marker is stored, exactly `keep` observations stay visible, none of them
      ranks below a dropped one, and other sessions see what they saw. */
  lemma PruneKeepsTheBest(e: EventTables, t: ObservationTables, session: string, keep: nat,
                          markerId: string, ts: int, other: string)
    requires markerId !in t.markers
    requires PruneChoice(e, t, session, keep) != []
    ensures var drop := PruneChoice(e, t, session, keep);
            var after := WithMarker(t, markerId, MarkerRow(session, drop, ts));
            && |Visible(after, session)| == keep
            && (forall id :: id in Visible(t, session) <==> id in drop || id in Visible(after, session))
            && (forall a, b :: a in drop && b in Visible(after, session) ==> PruneLe(t, a, b))
            && (other != session ==> Visible(after, other) == Visible(t, other))
  {
    var drop := PruneChoice(e, t, session, keep);
    var row := MarkerRow(session, drop, ts);
    MarkerHidesItsIds(t, markerId, row, session);
    MarkerHidesItsIds(t, markerId, row, other);
    PruneDropsTheFront(e, t, session, keep);
    SetLeft(Visible(t, session), drop, Visible(WithMarker(t, markerId, row), session), keep);
  }

  /** Taking distinct ids out of a set. */
  lemma SetLeft(all: set<string>, drop: seq<string>, rest: set<string>, keep: nat)
    requires Distinct(drop) && |drop| + keep == |all| && rest == all - (set id | id in drop)
    requires forall id :: id in drop ==> id in all
    ensures |rest| == keep && forall id :: id in all <==> id in drop || id in rest
  {
    DistinctSize(drop);
    assert (set id | id in drop) <= all;
  }

  lemma {:induction false} DistinctSize(s: seq<string>)
    requires Distinct(s)
    ensures |set x | x in s| == |s|
  {
    if s == [] {
      assert (set x | x in s) == {};
    } else {
      DistinctSize(s[1..]);
      assert (set x | x in s) == {s[0]} + set x | x in s[1..];
    }
  }
}
