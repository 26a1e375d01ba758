/** The type tables of crates/aver-core/src/seed.rs and ontology.rs: seeding,
    the materialised closure, alias resolution, implication and filters. */
module Ontology {
  import opened Prelude

  /** One row of predicate_types or entity_types; a row's id is its position,
      since rows are only ever inserted. */
  datatype TypeRow = TypeRow(
    name: string, parent: Option<nat>, single: bool, createdVia: string, createdAt: Option<int>)

  /** A hard-coded ontology list: each name with its optional parent. */
  type Listing = seq<(string, Option<string>)>

  function IdOf(rows: seq<TypeRow>, name: string): (id: Option<nat>)
    ensures id.Some? ==> id.value < |rows| && rows[id.value].name == name
    ensures id.None? ==> forall i :: 0 <= i < |rows| ==> rows[i].name != name
    ensures forall i :: 0 <= i < |rows| && rows[i].name == name ==> id.Some? && id.value <= i
  {
    if rows == [] then None
    else if rows[0].name == name then Some(0)
    else match IdOf(rows[1..], name)
      case None => assert forall i :: 0 < i < |rows| ==> rows[i] == rows[1..][i - 1]; None
      case Some(i) => assert forall i :: 0 < i < |rows| ==> rows[i] == rows[1..][i - 1]; Some(i + 1)
  }

  ghost predicate UniqueNames(rows: seq<TypeRow>) {
    forall i, j :: 0 <= i < j < |rows| ==> rows[i].name != rows[j].name
  }

  // ----- parent chains -----

  /** The row reached from `i` by following `n` parent links. */
  ghost function NthParent(rows: seq<TypeRow>, i: nat, n: nat): Option<nat> {
    if n == 0 then Some(i)
    else match NthParent(rows, i, n - 1)
      case Some(a) => if a < |rows| then rows[a].parent else None
      case None => None
  }

  ghost predicate IsAncestor(rows: seq<TypeRow>, child: nat, ancestor: nat) {
    exists n: nat :: NthParent(rows, child, n) == Some(ancestor)
  }

  ghost predicate Ranked(rows: seq<TypeRow>, rank: seq<nat>) {
    && |rank| == |rows|
    && forall i :: 0 <= i < |rows| && rows[i].parent.Some? ==>
         rows[i].parent.value < |rows| && rank[rows[i].parent.value] < rank[i]
  }

  /** No chain of parent links returns to where it started. */
  ghost predicate Acyclic(rows: seq<TypeRow>) {
    exists rank :: Ranked(rows, rank)
  }

  /** The pairs the closure table must hold. */
  ghost function Closure(rows: seq<TypeRow>): set<(nat, nat)> {
    set c: nat, a: nat | 0 <= c < |rows| && 0 <= a < |rows| && IsAncestor(rows, c, a) :: (c, a)
  }

  lemma {:induction false} ChainsConcatenate(rows: seq<TypeRow>, i: nat, n: nat, a: nat, m: nat)
    requires NthParent(rows, i, n) == Some(a)
    ensures NthParent(rows, i, n + m) == NthParent(rows, a, m)
  {
    if m > 0 {
      ChainsConcatenate(rows, i, n, a, m - 1);
    }
  }

  lemma {:induction false} ChainsDescend(rows: seq<TypeRow>, rank: seq<nat>, i: nat, n: nat)
    requires Ranked(rows, rank) && i < |rows|
    ensures NthParent(rows, i, n).Some? ==>
              NthParent(rows, i, n).value < |rows| && rank[NthParent(rows, i, n).value] + n <= rank[i]
  {
    if n > 0 {
      ChainsDescend(rows, rank, i, n - 1);
    }
  }

  lemma {:induction false} DeadChainsStayDead(rows: seq<TypeRow>, i: nat, n: nat, m: nat)
    requires NthParent(rows, i, n) == None && n <= m
    ensures NthParent(rows, i, m) == None
  {
    if n < m {
      DeadChainsStayDead(rows, i, n, m - 1);
    }
  }

  /** Being an ancestor is reflexive, transitive and, as links stay acyclic, antisymmetric. */
  lemma AncestryIsPartialOrder(rows: seq<TypeRow>, i: nat, j: nat, k: nat)
    requires Acyclic(rows) && i < |rows|
    ensures IsAncestor(rows, i, i)
    ensures IsAncestor(rows, i, j) && IsAncestor(rows, j, k) ==> IsAncestor(rows, i, k)
    ensures IsAncestor(rows, i, j) && IsAncestor(rows, j, i) ==> i == j
  {
    assert NthParent(rows, i, 0) == Some(i);
    if IsAncestor(rows, i, j) && IsAncestor(rows, j, k) {
      var n: nat :| NthParent(rows, i, n) == Some(j);
      var m: nat :| NthParent(rows, j, m) == Some(k);
      ChainsConcatenate(rows, i, n, j, m);
    }
    if IsAncestor(rows, i, j) && IsAncestor(rows, j, i) {
      var rank :| Ranked(rows, rank);
      var n: nat :| NthParent(rows, i, n) == Some(j);
      var m: nat :| NthParent(rows, j, m) == Some(i);
      ChainsConcatenate(rows, i, n, j, m);
      ChainsDescend(rows, rank, i, n + m);
    }
  }

  // ----- seeding -----

  ghost predicate Listed(list: Listing, name: string) {
    exists k :: 0 <= k < |list| && list[k].0 == name
  }

  /** Names are distinct and every parent is listed before its children. */
  ghost predicate ParentsFirst(list: Listing) {
    && (forall i, j :: 0 <= i < j < |list| ==> list[i].0 != list[j].0)
    && forall i :: 0 <= i < |list| && list[i].1.Some? ==>
         exists j :: 0 <= j < i && list[j].0 == list[i].1.value
  }

  /** A row outside the list hangs directly under a listed name, or under nothing:
      migration rows have no parent and extension rows hang under relates_to. */
  ghost predicate Seedable(rows: seq<TypeRow>, list: Listing) {
    && UniqueNames(rows)
    && forall i :: 0 <= i < |rows| && !Listed(list, rows[i].name) && rows[i].parent.Some? ==>
         rows[i].parent.value < |rows| && Listed(list, rows[rows[i].parent.value].name)
  }

  ghost function ParentId(rows: seq<TypeRow>, parent: Option<string>): Option<nat> {
    match parent
    case None => None
    case Some(p) => IdOf(rows, p)
  }

  /** An inserted row: no parent yet, the other columns at their defaults. */
  function FreshType(name: string): TypeRow { TypeRow(name, None, false, "seed", None) }

  /** The first `k` listed names are there; the new rows are fresh and come in the order they are first listed. */
  ghost predicate NamesIn(before: seq<TypeRow>, list: Listing, rows: seq<TypeRow>, k: nat)
    requires k <= |list|
  {
    && |before| <= |rows| && UniqueNames(rows) && rows[..|before|] == before
    && FreshInOrder(list, rows[|before|..], k)
    && forall j :: 0 <= j < k ==> IdOf(rows, list[j].0).Some?
  }

  ghost predicate FreshInOrder(list: Listing, added: seq<TypeRow>, k: nat) {
    && (forall i :: 0 <= i < |added| ==> Position(list, added[i].name) < k && added[i] == FreshType(added[i].name))
    && forall i, j :: 0 <= i < j < |added| ==> Position(list, added[i].name) < Position(list, added[j].name)
  }

  lemma OneNameIn(before: seq<TypeRow>, list: Listing, rows: seq<TypeRow>, k: nat)
    requires k < |list| && NamesIn(before, list, rows, k)
    ensures NamesIn(before, list, if IdOf(rows, list[k].0).None? then rows + [FreshType(list[k].0)] else rows, k + 1)
  {
    if IdOf(rows, list[k].0).None? { NewNameIn(before, list, rows, k); } else { KnownNameIn(before, list, rows, k); }
  }

  lemma KnownNameIn(before: seq<TypeRow>, list: Listing, rows: seq<TypeRow>, k: nat)
    requires k < |list| && NamesIn(before, list, rows, k) && IdOf(rows, list[k].0).Some?
    ensures NamesIn(before, list, rows, k + 1)
  {
  }

  lemma NewNameIn(before: seq<TypeRow>, list: Listing, rows: seq<TypeRow>, k: nat)
    requires k < |list| && NamesIn(before, list, rows, k) && IdOf(rows, list[k].0).None?
    ensures NamesIn(before, list, rows + [FreshType(list[k].0)], k + 1)
  {
    var row := FreshType(list[k].0);
    FirstListed(rows, list, k);
    NamesStay(rows, row, list, k);
    NewNameIsUnique(rows, row);
    OneMoreFresh(list, rows[|before|..], k);
    RowAppended(before, rows, row);
  }

  lemma RowAppended(before: seq<TypeRow>, rows: seq<TypeRow>, row: TypeRow)
    requires |before| <= |rows| && rows[..|before|] == before
    ensures (rows + [row])[..|before|] == before && (rows + [row])[|before|..] == rows[|before|..] + [row]
  {
  }

  lemma OneMoreFresh(list: Listing, added: seq<TypeRow>, k: nat)
    requires k < |list| && FreshInOrder(list, added, k) && Position(list, list[k].0) == k
    ensures FreshInOrder(list, added + [FreshType(list[k].0)], k + 1)
  {
  }

  lemma NewNameIsUnique(rows: seq<TypeRow>, row: TypeRow)
    requires UniqueNames(rows) && IdOf(rows, row.name).None?
    ensures UniqueNames(rows + [row])
  {
  }

  lemma NamesStay(rows: seq<TypeRow>, row: TypeRow, list: Listing, k: nat)
    requires k < |list| && row.name == list[k].0 && forall j :: 0 <= j < k ==> IdOf(rows, list[j].0).Some?
    ensures forall j :: 0 <= j <= k ==> IdOf(rows + [row], list[j].0).Some?
  {
    var more := rows + [row];
    assert more[|rows|].name == list[k].0;
    forall j | 0 <= j < k ensures IdOf(more, list[j].0).Some? {
      assert more[IdOf(rows, list[j].0).value].name == list[j].0;
    }
  }

  /** The parent the last of the first `k` entries for this name gives it. */
  function LastParent(list: Listing, name: string, k: nat): Option<Option<string>>
    requires k <= |list|
  {
    if k == 0 then None else if list[k - 1].0 == name then Some(list[k - 1].1) else LastParent(list, name, k - 1)
  }

  ghost function Reparented(before: seq<TypeRow>, list: Listing, row: TypeRow, k: nat): TypeRow
    requires k <= |list|
  {
    match LastParent(list, row.name, k)
    case None => row
    case Some(parent) => row.(parent := ParentId(before, parent))
  }

  /** The first `k` entries have set their parents; no other column or row has changed. */
  ghost predicate ParentsSet(before: seq<TypeRow>, list: Listing, rows: seq<TypeRow>, k: nat)
    requires k <= |list|
  {
    |rows| == |before| && forall i :: 0 <= i < |rows| ==> rows[i] == Reparented(before, list, before[i], k)
  }

  /** What seed_type_table leaves behind: the missing names inserted, then every listed parent set. */
  ghost predicate Seeded(before: seq<TypeRow>, list: Listing, rows: seq<TypeRow>) {
    exists inserted :: NamesIn(before, list, inserted, |list|) && ParentsSet(inserted, list, rows, |list|)
  }

  /** The entry names itself as its parent, which the table's triggers refuse. */
  predicate OwnParent(entry: (string, Option<string>)) { entry.1 == Some(entry.0) }

  ghost predicate NoneOwnParent(list: Listing) { forall k :: 0 <= k < |list| ==> !OwnParent(list[k]) }

  function Position(list: Listing, name: string): (p: nat)
    ensures p <= |list|
    ensures p < |list| ==> list[p].0 == name
    ensures forall k :: 0 <= k < |list| && list[k].0 == name ==> p <= k
  {
    if list == [] then 0
    else if list[0].0 == name then 0
    else
      assert forall k :: 0 < k < |list| ==> list[k] == list[1..][k - 1];
      1 + Position(list[1..], name)
  }

  lemma {:induction false} LastParentOfListed(list: Listing, k: nat, n: nat)
    requires k < n <= |list| && forall i, j :: 0 <= i < j < |list| ==> list[i].0 != list[j].0
    ensures LastParent(list, list[k].0, n) == Some(list[k].1)
  {
    if k < n - 1 { LastParentOfListed(list, k, n - 1); }
  }

  lemma {:induction false} LastParentOfUnlisted(list: Listing, name: string, n: nat)
    requires n <= |list| && forall i :: 0 <= i < n ==> list[i].0 != name
    ensures LastParent(list, name, n) == None
  {
    if n > 0 { LastParentOfUnlisted(list, name, n - 1); }
  }

  lemma SeedingIsAcyclic(before: seq<TypeRow>, list: Listing, rows: seq<TypeRow>)
    requires ParentsFirst(list) && Seedable(before, list) && Seeded(before, list, rows)
    ensures Acyclic(rows) && Seedable(rows, list)
  {
    var inserted :| NamesIn(before, list, inserted, |list|) && ParentsSet(inserted, list, rows, |list|);
    SameNamesSameIds(inserted, rows);
    var rank := seq(|rows|, (i: nat) requires 0 <= i < |rows| => Position(list, rows[i].name));
    forall i | 0 <= i < |rows| && rows[i].parent.Some?
      ensures rows[i].parent.value < |rows| && rank[rows[i].parent.value] < rank[i]
      ensures !Listed(list, rows[i].name) ==> Listed(list, rows[rows[i].parent.value].name)
    {
      SeededRowRanked(before, list, inserted, rows, i);
    }
    assert Ranked(rows, rank);
  }

  lemma {:induction false} SeededRowRanked(before: seq<TypeRow>, list: Listing, inserted: seq<TypeRow>,
                                           rows: seq<TypeRow>, i: nat)
    requires ParentsFirst(list) && Seedable(before, list)
    requires NamesIn(before, list, inserted, |list|) && ParentsSet(inserted, list, rows, |list|)
    requires i < |rows| && rows[i].parent.Some?
    ensures rows[i].parent.value < |rows|
    ensures Position(list, rows[rows[i].parent.value].name) < Position(list, rows[i].name)
    ensures !Listed(list, rows[i].name) ==> Listed(list, rows[rows[i].parent.value].name)
  {
    var name := inserted[i].name;
    assert rows[i] == Reparented(inserted, list, inserted[i], |list|);
    if Listed(list, name) {
      var k := Position(list, name);
      LastParentOfListed(list, k, |list|);
      var j :| 0 <= j < k && list[j].0 == list[k].1.value;
      var p := IdOf(inserted, list[j].0).value;
      assert rows[p] == Reparented(inserted, list, inserted[p], |list|);
      assert Position(list, list[j].0) <= j;
    } else {
      LastParentOfUnlisted(list, name, |list|);
      assert Position(list, name) == |list|;
      assert i < |before| && inserted[i] == inserted[..|before|][i] == before[i];
      var p := before[i].parent.value;
      assert inserted[p] == inserted[..|before|][p] == before[p];
      assert rows[p] == Reparented(inserted, list, inserted[p], |list|);
    }
  }

  /** Adding a leaf below an existing row keeps the links acyclic. */
  lemma LeafKeepsAcyclic(rows: seq<TypeRow>, leaf: TypeRow)
    requires Acyclic(rows)
    requires leaf.parent.Some? ==> leaf.parent.value < |rows|
    ensures Acyclic(rows + [leaf])
  {
    var rank :| Ranked(rows, rank);
    var top := if leaf.parent.Some? then rank[leaf.parent.value] + 1 else 0;
    assert Ranked(rows + [leaf], rank + [top]);
  }

  /** predicate_types or entity_types together with its closure table. */
  class TypeTable {
    var rows: seq<TypeRow>
    var closure: set<(nat, nat)>

    ghost predicate Valid()
      reads this
    {
      Acyclic(rows) && UniqueNames(rows) && closure == Closure(rows)
    }

    constructor ()
      ensures rows == [] && closure == {} && Valid()
    {
      rows, closure := [], {};
      new;
      assert Ranked([], []);
      assert Closure([]) == {};
    }

    /** First pass: INSERT OR IGNORE every listed name. The missing names are appended in the order they are
        first listed, without parents and with the columns' defaults. */
    method InsertNames(list: Listing)
      requires UniqueNames(rows)
      modifies this`rows
      ensures NamesIn(old(rows), list, rows, |list|)
      ensures forall i :: |old(rows)| <= i < |rows| ==>
                rows[i].parent == None && !rows[i].single && rows[i].createdVia == "seed" && rows[i].createdAt == None
    {
      ghost var before := rows;
      for k := 0 to |list|
        invariant NamesIn(before, list, rows, k)
      {
        OneNameIn(before, list, rows, k);
        if IdOf(rows, list[k].0).None? {
          rows := rows + [FreshType(list[k].0)];
        }
      }
    }

    /** Second pass: UPDATE the parent of every listed name; a later entry for the same name wins, a parent
        that is not there becomes none, and an entry that names itself stops the pass. */
    method SetParents(list: Listing) returns (ok: bool)
      requires UniqueNames(rows) && forall k :: 0 <= k < |list| ==> IdOf(rows, list[k].0).Some?
      modifies this`rows
      ensures ok <==> NoneOwnParent(list)
      ensures ok ==> ParentsSet(old(rows), list, rows, |list|)
      ensures !ok ==> exists k :: 0 <= k < |list| && OwnParent(list[k]) && ParentsSet(old(rows), list, rows, k)
    {
      ghost var before := rows;
      for k := 0 to |list|
        invariant ParentsSet(before, list, rows, k) && forall j :: 0 <= j < k ==> !OwnParent(list[j])
      {
        ParentStep(before, list, rows, k);
        var parent := match list[k].1 { case None => None case Some(p) => IdOf(rows, p) };
        var id := IdOf(rows, list[k].0).value;
        if parent == Some(id) { return false; }
        rows := rows[id := rows[id].(parent := parent)];
      }
      ok := true;
    }

    method SeedTypeTable(list: Listing) returns (ok: bool)
      requires UniqueNames(rows)
      modifies this`rows
      ensures ok <==> NoneOwnParent(list)
      ensures ok ==> Seeded(old(rows), list, rows)
      ensures ok && ParentsFirst(list) && Seedable(old(rows), list) ==> Acyclic(rows) && Seedable(rows, list)
      ensures ParentsFirst(list) ==> ok
    {
      InsertNames(list);
      ghost var inserted := rows;
      ok := SetParents(list);
      if ParentsFirst(list) { NoOwnParents(list); }
      if !ok { return; }
      assert NamesIn(old(rows), list, inserted, |list|);
      if ParentsFirst(list) && Seedable(old(rows), list) {
        SeedingIsAcyclic(old(rows), list, rows);
      }
    }

    /** Clears the closure and walks every row up its parent links. */
    method RebuildClosure()
      requires Acyclic(rows)
      modifies this`closure
      ensures closure == Closure(rows)
    {
      closure := {};
      ghost var rank :| Ranked(rows, rank);
      for child := 0 to |rows|
        invariant forall c: nat, a: nat :: (c, a) in closure <==> 0 <= c < child && a < |rows| && IsAncestor(rows, c, a)
      {
        var ancestor := Some(child);
        ghost var n := 0;
        while ancestor.Some?
          invariant ancestor == NthParent(rows, child, n)
          invariant ancestor.Some? ==> ancestor.value < |rows|
          invariant forall c: nat, a: nat :: (c, a) in closure <==>
                      (0 <= c < child && a < |rows| && IsAncestor(rows, c, a))
                      || (c == child && exists m: nat :: m < n && NthParent(rows, child, m) == Some(a))
          decreases if ancestor.Some? then rank[ancestor.value] + 1 else 0
        {
          closure := closure + {(child, ancestor.value)};
          ancestor := rows[ancestor.value].parent;
          n := n + 1;
        }
        forall a: nat ensures (child, a) in closure <==> a < |rows| && IsAncestor(rows, child, a) {
          if IsAncestor(rows, child, a) {
            var m: nat :| NthParent(rows, child, m) == Some(a);
            if n <= m { DeadChainsStayDead(rows, child, n, m); }
          }
          if (child, a) in closure {
            var m: nat :| m < n && NthParent(rows, child, m) == Some(a);
            ChainsDescend(rows, rank, child, m);
          }
        }
      }
      forall p: (nat, nat) ensures p in closure <==> p in Closure(rows) {
        assert p == (p.0, p.1);
        assert (p.0, p.1) in closure ==> p.0 < |rows|;
      }
    }
  }

  /** The k-th update of the second pass. */
  lemma ParentStep(before: seq<TypeRow>, list: Listing, rows: seq<TypeRow>, k: nat)
    requires UniqueNames(before) && k < |list| && IdOf(before, list[k].0).Some?
    requires ParentsSet(before, list, rows, k)
    ensures IdOf(rows, list[k].0).Some?
    ensures ParentId(rows, list[k].1) == IdOf(rows, list[k].0) <==> OwnParent(list[k])
    ensures var id := IdOf(rows, list[k].0).value;
            ParentsSet(before, list, rows[id := rows[id].(parent := ParentId(rows, list[k].1))], k + 1)
  {
    SameNamesSameIds(before, rows);
    OwnParentById(rows, list[k], IdOf(rows, list[k].0).value);
  }

  lemma OwnParentById(rows: seq<TypeRow>, entry: (string, Option<string>), id: nat)
    requires IdOf(rows, entry.0) == Some(id)
    ensures ParentId(rows, entry.1) == Some(id) <==> OwnParent(entry)
  {
  }

  lemma NoOwnParents(list: Listing)
    requires ParentsFirst(list)
    ensures NoneOwnParent(list)
  {
  }

  /** A name missing so far is first listed here. */
  lemma FirstListed(rows: seq<TypeRow>, list: Listing, k: nat)
    requires k < |list| && IdOf(rows, list[k].0).None?
    requires forall j :: 0 <= j < k ==> IdOf(rows, list[j].0).Some?
    ensures Position(list, list[k].0) == k
  {
  }

  ghost predicate SameNames(a: seq<TypeRow>, b: seq<TypeRow>) {
    |a| == |b| && forall i :: 0 <= i < |a| ==> a[i].name == b[i].name
  }

  lemma SameNamesSameIds(a: seq<TypeRow>, b: seq<TypeRow>)
    requires SameNames(a, b)
    ensures forall name :: IdOf(a, name) == IdOf(b, name)
    ensures UniqueNames(a) ==> UniqueNames(b)
  {
    forall name ensures IdOf(a, name) == IdOf(b, name) {
      var x, y := IdOf(a, name), IdOf(b, name);
      if x.Some? { assert b[x.value].name == name; }
      if y.Some? { assert a[y.value].name == name; }
    }
  }
}
