/** Resolving, comparing and expanding predicates over the type, alias and
    closure tables (crates/aver-core/src/ontology.rs). */
module PredicateFilter {
  import opened Prelude
  import opened Ontology

  datatype Vocabulary = Vocabulary(
    rows: seq<TypeRow>, aliases: map<string, nat>, closure: set<(nat, nat)>)
  {
    /** Every alias points at a row (a foreign key) and the closure is up to date. */
    ghost predicate Valid() {
      && Acyclic(rows) && UniqueNames(rows) && closure == Closure(rows)
      && forall alias :: alias in aliases ==> aliases[alias] < |rows|
    }

    /** The type a name or alias stands for; a type name wins over an alias. */
    function Resolve(name: string): (id: Option<nat>)
      requires forall alias :: alias in aliases ==> aliases[alias] < |rows|
      ensures id.Some? ==> id.value < |rows|
      ensures id.Some? <==> IdOf(rows, name).Some? || name in aliases
    {
      match IdOf(rows, name)
      case Some(i) => Some(i)
      case None => if name in aliases then Some(aliases[name]) else None
    }

    function CanonicalName(name: string): Option<string>
      requires forall alias :: alias in aliases ==> aliases[alias] < |rows|
    {
      match Resolve(name)
      case Some(i) => Some(rows[i].name)
      case None => None
    }

    /** predicate_implies: blank names are errors, unknown names imply nothing. */
    function Implies(predicate_: string, ancestor: string): Result<bool, ()>
      requires forall alias :: alias in aliases ==> aliases[alias] < |rows|
    {
      if Blank(predicate_) || Blank(ancestor) then Err(())
      else match (CanonicalName(predicate_), CanonicalName(ancestor))
        case (Some(p), Some(a)) =>
          if p == a then Ok(true)
          else (match (IdOf(rows, p), IdOf(rows, a))
                case (Some(i), Some(j)) => Ok((i, j) in closure)
                case _ => Ok(false))
        case _ => Ok(false)
    }

    ghost predicate Known(name: string) {
      IdOf(rows, name).Some? || name in aliases
    }
  }

  lemma RowFoundByName(rows: seq<TypeRow>, i: nat)
    requires UniqueNames(rows) && i < |rows|
    ensures IdOf(rows, rows[i].name) == Some(i)
  {
  }

  /** Blank names are errors; otherwise implication is ancestry of the types the names stand for, and a
      name that stands for none implies nothing and is implied by nothing. */
  lemma ImpliesIsAncestry(v: Vocabulary, p: string, q: string)
    requires v.Valid()
    ensures v.Implies(p, q) ==
            if Blank(p) || Blank(q) then Err(())
            else Ok(v.Known(p) && v.Known(q) && IsAncestor(v.rows, v.Resolve(p).value, v.Resolve(q).value))
  {
    if !v.Known(p) || !v.Known(q) { return; }
    var i, j := v.Resolve(p).value, v.Resolve(q).value;
    RowFoundByName(v.rows, i);
    RowFoundByName(v.rows, j);
    AncestryIsPartialOrder(v.rows, i, i, i);
    assert (i, j) in v.closure <==> IsAncestor(v.rows, i, j);
  }

  /** Implication is reflexive and transitive on known names, and two names imply
      each other exactly when they have one canonical name. */
  lemma ImplicationIsPartialOrder(v: Vocabulary, p: string, q: string, r: string)
    requires v.Valid() && v.Known(p) && v.Known(q) && v.Known(r)
    requires !Blank(p) && !Blank(q) && !Blank(r)
    ensures v.Implies(p, p) == Ok(true)
    ensures v.Implies(p, q) == Ok(true) && v.Implies(q, r) == Ok(true) ==> v.Implies(p, r) == Ok(true)
    ensures v.Implies(p, q) == Ok(true) && v.Implies(q, p) == Ok(true) <==>
              v.CanonicalName(p) == v.CanonicalName(q)
  {
    ImpliesIsAncestry(v, p, p);
    ImpliesIsAncestry(v, p, q);
    ImpliesIsAncestry(v, q, p);
    ImpliesIsAncestry(v, q, r);
    ImpliesIsAncestry(v, p, r);
    var i, j := v.Resolve(p).value, v.Resolve(q).value;
    AncestryIsPartialOrder(v.rows, i, j, v.Resolve(r).value);
    RowFoundByName(v.rows, i);
    RowFoundByName(v.rows, j);
  }

  /** `name` is the type `child`, or one of its aliases, and `child` lies below `ancestor`. */
  ghost predicate LetsThrough(v: Vocabulary, child: nat, ancestor: nat, name: string) {
    && child < |v.rows| && (child, ancestor) in v.closure
    && (v.rows[child].name == name || (name in v.aliases && v.aliases[name] == child))
  }

  /** The names a single filter entry lets through. */
  ghost predicate Lets(v: Vocabulary, filter: string, name: string)
    requires v.Valid()
  {
    || name == filter
    || (v.Known(filter) && exists child: nat :: LetsThrough(v, child, v.Resolve(filter).value, name))
  }

  /** The body of expand_predicate_filter's loop for a name that resolves to `ancestor`. */
  method DescendantNames(v: Vocabulary, ancestor: nat) returns (names: set<string>)
    requires v.Valid() && ancestor < |v.rows|
    ensures forall name :: name in names <==> exists child: nat :: LetsThrough(v, child, ancestor, name)
  {
    names := {};
    for child := 0 to |v.rows|
      invariant forall name :: name in names <==>
                  exists c: nat :: c < child && LetsThrough(v, c, ancestor, name)
    {
      ghost var before := names;
      if (child, ancestor) in v.closure {
        names := names + {v.rows[child].name}
                       + (set alias | alias in v.aliases && v.aliases[alias] == child);
      }
      assert forall name :: name in names <==> name in before || LetsThrough(v, child, ancestor, name);
    }
  }

  /** What one entry of the filter adds. */
  method EntryNames(v: Vocabulary, entry: string) returns (names: set<string>)
    requires v.Valid()
    ensures forall name :: name in names <==> Lets(v, entry, name)
  {
    names := {entry};
    var canonical := v.CanonicalName(entry);
    if canonical.Some? {
      ghost var resolved := v.Resolve(entry).value;
      RowFoundByName(v.rows, resolved);
      AncestryIsPartialOrder(v.rows, resolved, resolved, resolved);
      assert LetsThrough(v, resolved, resolved, canonical.value);
      var descendants := DescendantNames(v, IdOf(v.rows, canonical.value).value);
      names := names + {canonical.value} + descendants;
    }
  }

  /** expand_predicate_filter. */
  method ExpandPredicateFilter(v: Vocabulary, predicates: seq<string>) returns (allowed: set<string>)
    requires v.Valid()
    ensures forall name :: name in allowed <==>
              exists k :: 0 <= k < |predicates| && Lets(v, predicates[k], name)
  {
    allowed := {};
    for k := 0 to |predicates|
      invariant forall name :: name in allowed <==> exists j :: 0 <= j < k && Lets(v, predicates[j], name)
    {
      var names := EntryNames(v, predicates[k]);
      allowed := allowed + names;
    }
  }

  /** The filter for `q` lets a known name `p` through exactly when `p` implies `q`. */
  ghost predicate FilterAgrees(v: Vocabulary, p: string, q: string)
    requires v.Valid() && v.Known(p) && v.Known(q)
  {
    Lets(v, q, p) <==> IsAncestor(v.rows, v.Resolve(p).value, v.Resolve(q).value)
  }

  /** An alias that is also a type name stands for a type that name already implies. */
  ghost predicate Harmless(v: Vocabulary, alias: string)
    requires v.Valid() && alias in v.aliases
  {
    IdOf(v.rows, alias).Some? ==> IsAncestor(v.rows, IdOf(v.rows, alias).value, v.aliases[alias])
  }

  /** Filters and implication agree on all known names if and only if every alias is
      harmless. Disjoint alias and type names are; so is the shipped self-alias `uses`. */
  lemma FilterIsImplication(v: Vocabulary)
    requires v.Valid()
    ensures (forall p, q :: v.Known(p) && v.Known(q) ==> FilterAgrees(v, p, q))
       <==> (forall alias :: alias in v.aliases ==> Harmless(v, alias))
  {
    if forall alias :: alias in v.aliases ==> Harmless(v, alias) {
      forall p, q | v.Known(p) && v.Known(q) ensures FilterAgrees(v, p, q) {
        assert p in v.aliases ==> Harmless(v, p);
        FilterMeansImplication(v, p, q);
      }
    }
    if forall p, q :: v.Known(p) && v.Known(q) ==> FilterAgrees(v, p, q) {
      forall alias | alias in v.aliases ensures Harmless(v, alias) {
        var target := v.aliases[alias];
        var q := v.rows[target].name;
        RowFoundByName(v.rows, target);
        AncestryIsPartialOrder(v.rows, target, target, target);
        assert LetsThrough(v, target, target, alias);
        assert FilterAgrees(v, alias, q);
      }
    }
  }

  lemma FilterMeansImplication(v: Vocabulary, p: string, q: string)
    requires v.Valid() && v.Known(p) && v.Known(q)
    requires p in v.aliases && IdOf(v.rows, p).Some? ==>
               IsAncestor(v.rows, IdOf(v.rows, p).value, v.aliases[p])
    ensures Lets(v, q, p) <==> IsAncestor(v.rows, v.Resolve(p).value, v.Resolve(q).value)
  {
    var i, j := v.Resolve(p).value, v.Resolve(q).value;
    AncestryIsPartialOrder(v.rows, i, i, i);
    if IsAncestor(v.rows, i, j) {
      assert LetsThrough(v, i, j, p);
    }
    if Lets(v, q, p) && p != q {
      var child: nat :| LetsThrough(v, child, j, p);
      RowFoundByName(v.rows, child);
      AncestryIsPartialOrder(v.rows, i, child, j);
    }
  }

  // ----- an optional filter, as the graph queries take it -----

  ghost predicate PredicateAdmitted(v: Vocabulary, predicates: Option<seq<string>>, name: string)
    requires v.Valid()
  {
    predicates.None? || exists k :: 0 <= k < |predicates.value| && Lets(v, predicates.value[k], name)
  }

  ghost predicate FilterOf(v: Vocabulary, predicates: Option<seq<string>>, filter: Option<set<string>>)
    requires v.Valid()
  {
    && (filter.None? <==> predicates.None?)
    && (filter.Some? ==> forall name :: name in filter.value <==> PredicateAdmitted(v, predicates, name))
  }

  predicate BadFilter(predicates: Option<seq<string>>) {
    predicates.Some?
    && (predicates.value == [] || exists k :: 0 <= k < |predicates.value| && Blank(predicates.value[k]))
  }

  lemma BadFilterSays(predicates: Option<seq<string>>)
    ensures BadFilter(predicates) <==>
              predicates.Some? && (predicates.value == [] || exists name :: name in predicates.value && Blank(name))
  {
  }

  method FilterFor(v: Vocabulary, predicates: Option<seq<string>>) returns (filter: Option<set<string>>)
    requires v.Valid()
    ensures FilterOf(v, predicates, filter)
  {
    if predicates.None? { return None; }
    var allowed := ExpandPredicateFilter(v, predicates.value);
    filter := Some(allowed);
  }
}
