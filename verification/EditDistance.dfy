/** The edit distance between predicate names and the suggestion it leads to
    (crates/aver-core/src/ontology.rs). */
module EditDistance {

  function Min(a: nat, b: nat): nat { if a <= b then a else b }

  // ----- the recursive definition -----

  /** Deletions, insertions and substitutions needed to turn `a` into `b`, last characters first. */
  function Distance(a: string, b: string): nat
    decreases |a| + |b|
  {
    if a == "" then |b|
    else if b == "" then |a|
    else
      var a', b' := a[..|a| - 1], b[..|b| - 1];
      Min(Min(Distance(a', b) + 1, Distance(a, b') + 1),
          Distance(a', b') + if a[|a| - 1] == b[|b| - 1] then 0 else 1)
  }

  // ----- the two-row loop -----

  /** Entry `j` of row `i`. */
  function Cell(a: string, b: string, i: nat, j: nat): nat
    requires i <= |a| && j <= |b|
  {
    Distance(a[..i], b[..j])
  }

  lemma CellStep(a: string, b: string, i: nat, j: nat)
    requires i < |a| && j < |b|
    ensures Cell(a, b, i + 1, j + 1) ==
            Min(Min(Cell(a, b, i, j + 1) + 1, Cell(a, b, i + 1, j) + 1),
                Cell(a, b, i, j) + if a[i] == b[j] then 0 else 1)
  {
    var s, t := a[..i + 1], b[..j + 1];
    assert s[..i] == a[..i] && t[..j] == b[..j];
  }

  /** edit_distance: one pass over `left`, two rows of length |right| + 1, swapped after each character. */
  method TwoRows(left: string, right: string) returns (distance: nat)
    ensures distance == Distance(left, right)
  {
    var n := |right|;
    var previous := new nat[n + 1](j => j);
    var current := new nat[n + 1](_ => 0);
    for i := 0 to |left|
      invariant previous.Length == current.Length == n + 1 && previous != current && fresh(previous) && fresh(current)
      invariant forall j :: 0 <= j <= n ==> previous[j] == Cell(left, right, i, j)
    {
      current[0] := i + 1;
      for j := 0 to n
        invariant forall k :: 0 <= k <= n ==> previous[k] == Cell(left, right, i, k)
        invariant forall k :: 0 <= k <= j ==> current[k] == Cell(left, right, i + 1, k)
      {
        var deletion := previous[j + 1] + 1;
        var insertion := current[j] + 1;
        var substitution := previous[j] + if left[i] != right[j] then 1 else 0;
        current[j + 1] := Min(Min(deletion, insertion), substitution);
        CellStep(left, right, i, j);
      }
      previous, current := current, previous;
    }
    assert left[..|left|] == left && right[..n] == right;
    distance := previous[n];
  }

  // ----- scripts -----

  /** One step of an edit, from the front: keep or replace a character, delete one, insert one. */
  datatype Edit = Keep(c: char) | Replace(old_: char, new_: char) | Delete(c: char) | Insert(c: char)

  function Cost(script: seq<Edit>): nat {
    if script == [] then 0 else (if script[0].Keep? then 0 else 1) + Cost(script[1..])
  }

  function Reads(e: Edit): string {
    match e case Keep(c) => [c] case Replace(x, _) => [x] case Delete(c) => [c] case Insert(_) => ""
  }

  function Writes(e: Edit): string {
    match e case Keep(c) => [c] case Replace(_, y) => [y] case Delete(_) => "" case Insert(c) => [c]
  }

  function Before(script: seq<Edit>): string {
    if script == [] then "" else Reads(script[0]) + Before(script[1..])
  }

  function After(script: seq<Edit>): string {
    if script == [] then "" else Writes(script[0]) + After(script[1..])
  }

  ghost predicate Turns(script: seq<Edit>, a: string, b: string) {
    Before(script) == a && After(script) == b
  }

  lemma {:induction false} ScriptsConcat(s: seq<Edit>, t: seq<Edit>)
    ensures Before(s + t) == Before(s) + Before(t) && After(s + t) == After(s) + After(t)
    ensures Cost(s + t) == Cost(s) + Cost(t)
    decreases |s|
  {
    if s == [] {
      assert s + t == t;
    } else {
      var e, rest := s[0], s[1..];
      assert (s + t)[1..] == rest + t && (s + t)[0] == e;
      ScriptsConcat(rest, t);
      assert Reads(e) + (Before(rest) + Before(t)) == Before(s) + Before(t);
      assert Writes(e) + (After(rest) + After(t)) == After(s) + After(t);
    }
  }

  lemma OneEdit(e: Edit)
    ensures Cost([e]) == if e.Keep? then 0 else 1
    ensures Before([e]) == Reads(e) && After([e]) == Writes(e)
  {
    assert [e][1..] == [];
  }

  lemma Append(front: seq<Edit>, last: Edit, a: string, b: string)
    requires Turns(front, a, b)
    ensures Turns(front + [last], a + Reads(last), b + Writes(last))
    ensures Cost(front + [last]) == Cost(front) + if last.Keep? then 0 else 1
  {
    OneEdit(last);
    ScriptsConcat(front, [last]);
  }

  /** A script as short as the distance exists. */
  lemma {:induction false} BestScript(a: string, b: string) returns (script: seq<Edit>)
    ensures Turns(script, a, b) && Cost(script) == Distance(a, b)
    decreases |a| + |b|
  {
    if a == "" && b == "" {
      script := [];
    } else if a == "" {
      script := Inserting(a, b);
    } else if b == "" {
      script := Deleting(a, b);
    } else {
      var a', b' := a[..|a| - 1], b[..|b| - 1];
      if Distance(a, b) == Distance(a', b) + 1 {
        script := Deleting(a, b);
      } else if Distance(a, b) == Distance(a, b') + 1 {
        script := Inserting(a, b);
      } else {
        script := Matching(a, b);
      }
    }
  }

  lemma {:induction false} Matching(a: string, b: string) returns (script: seq<Edit>)
    requires a != "" && b != ""
    requires Distance(a, b) ==
             Distance(a[..|a| - 1], b[..|b| - 1]) + if a[|a| - 1] == b[|b| - 1] then 0 else 1
    ensures Turns(script, a, b) && Cost(script) == Distance(a, b)
    decreases |a| + |b|, 0
  {
    var a', b', x, y := a[..|a| - 1], b[..|b| - 1], a[|a| - 1], b[|b| - 1];
    var front := BestScript(a', b');
    var last := if x == y then Keep(x) else Replace(x, y);
    Append(front, last, a', b');
    assert a == a' + Reads(last) && b == b' + Writes(last);
    script := front + [last];
  }

  lemma {:induction false} Deleting(a: string, b: string) returns (script: seq<Edit>)
    requires a != "" && Distance(a, b) == Distance(a[..|a| - 1], b) + 1
    ensures Turns(script, a, b) && Cost(script) == Distance(a, b)
    decreases |a| + |b|, 0
  {
    var front := BestScript(a[..|a| - 1], b);
    var last := Delete(a[|a| - 1]);
    Append(front, last, a[..|a| - 1], b);
    assert a == a[..|a| - 1] + Reads(last) && b + Writes(last) == b;
    script := front + [last];
  }

  lemma {:induction false} Inserting(a: string, b: string) returns (script: seq<Edit>)
    requires b != "" && Distance(a, b) == Distance(a, b[..|b| - 1]) + 1
    ensures Turns(script, a, b) && Cost(script) == Distance(a, b)
    decreases |a| + |b|, 0
  {
    var front := BestScript(a, b[..|b| - 1]);
    var last := Insert(b[|b| - 1]);
    Append(front, last, a, b[..|b| - 1]);
    assert b == b[..|b| - 1] + Writes(last) && a + Reads(last) == a;
    script := front + [last];
  }

  lemma LastEdit(a: string, b: string, e: Edit)
    ensures Distance(a + Before([e]), b + After([e])) <= Distance(a, b) + Cost([e])
  {
    OneEdit(e);
    var a', b' := a + Before([e]), b + After([e]);
    assert e.Insert? ==> a' == a;
    assert e.Delete? ==> b' == b;
    assert !e.Insert? ==> a'[..|a|] == a;
    assert !e.Delete? ==> b'[..|b|] == b;
  }

  /** No script is shorter. */
  lemma {:induction false} NoShorterScript(a: string, b: string, script: seq<Edit>)
    requires Turns(script, a, b)
    ensures Cost(script) >= Distance(a, b)
    decreases |script|
  {
    if script != [] {
      var front, last := script[..|script| - 1], script[|script| - 1];
      assert script == front + [last];
      ScriptsConcat(front, [last]);
      NoShorterScript(Before(front), After(front), front);
      LastEdit(Before(front), After(front), last);
    }
  }

  /** The distance is the length of a shortest script. */
  lemma DistanceIsShortestScript(a: string, b: string, n: nat)
    ensures Distance(a, b) <= n <==> exists script :: Turns(script, a, b) && Cost(script) <= n
  {
    var best := BestScript(a, b);
    if script :| Turns(script, a, b) && Cost(script) <= n { NoShorterScript(a, b, script); }
  }

  // ----- a metric -----

  lemma {:induction false} ZeroIffEqual(a: string, b: string)
    ensures Distance(a, b) == 0 <==> a == b
    decreases |a| + |b|
  {
    if a != "" && b != "" {
      var a', b', x, y := a[..|a| - 1], b[..|b| - 1], a[|a| - 1], b[|b| - 1];
      assert a == a' + [x] && b == b' + [y];
      ZeroIffEqual(a', b');
    }
  }

  lemma {:induction false} Symmetric(a: string, b: string)
    ensures Distance(a, b) == Distance(b, a)
    decreases |a| + |b|
  {
    if a != "" && b != "" {
      Symmetric(a[..|a| - 1], b);
      Symmetric(a, b[..|b| - 1]);
      Symmetric(a[..|a| - 1], b[..|b| - 1]);
    }
  }

  lemma Prepend(e: Edit, script: seq<Edit>)
    ensures Before([e] + script) == Before([e]) + Before(script) && After([e] + script) == After([e]) + After(script)
    ensures Cost([e] + script) == Cost([e]) + Cost(script)
  {
    ScriptsConcat([e], script);
  }

  /** What one edit after another comes to, when the first writes the character the second reads. */
  function Merge(e: Edit, f: Edit): seq<Edit>
    requires !e.Delete? && !f.Insert?
  {
    match (e, f)
    case (Insert(_), Delete(_)) => []
    case (Insert(_), Keep(c)) => [Insert(c)]
    case (Insert(_), Replace(_, z)) => [Insert(z)]
    case (Keep(x), Delete(_)) => [Delete(x)]
    case (Keep(x), Keep(_)) => [Keep(x)]
    case (Keep(x), Replace(_, z)) => [Replace(x, z)]
    case (Replace(x, _), Delete(_)) => [Delete(x)]
    case (Replace(x, y), Keep(_)) => [Replace(x, y)]
    case (Replace(x, _), Replace(_, z)) => [Replace(x, z)]
  }

  lemma MergeWorks(e: Edit, f: Edit)
    requires !e.Delete? && !f.Insert? && After([e]) == Before([f])
    ensures Before(Merge(e, f)) == Before([e]) && After(Merge(e, f)) == After([f])
    ensures Cost(Merge(e, f)) <= Cost([e]) + Cost([f])
  {
    OneEdit(e);
    OneEdit(f);
    assert After([e])[0] == Before([f])[0];
    if Merge(e, f) != [] { OneEdit(Merge(e, f)[0]); }
  }

  lemma NothingLeft(s: seq<Edit>, t: seq<Edit>)
    requires After(s) == Before(t) && (s != [] ==> !s[0].Delete?) && (t != [] ==> !t[0].Insert?)
    ensures s == [] <==> t == []
  {
    if s != [] { assert Writes(s[0]) != ""; }
    if t != [] { assert Reads(t[0]) != ""; }
  }

  /** One script after another, as a single script. */
  lemma {:induction false} Compose(s: seq<Edit>, t: seq<Edit>) returns (u: seq<Edit>)
    requires After(s) == Before(t)
    ensures Before(u) == Before(s) && After(u) == After(t) && Cost(u) <= Cost(s) + Cost(t)
    decreases |s| + |t|
  {
    if s != [] && s[0].Delete? {
      var rest := Compose(s[1..], t);
      Prepend(s[0], rest);
      Prepend(s[0], s[1..]);
      assert s == [s[0]] + s[1..];
      OneEdit(s[0]);
      u := [s[0]] + rest;
    } else if t != [] && t[0].Insert? {
      Prepend(t[0], t[1..]);
      assert t == [t[0]] + t[1..];
      OneEdit(t[0]);
      var rest := Compose(s, t[1..]);
      Prepend(t[0], rest);
      u := [t[0]] + rest;
    } else if s == [] || t == [] {
      NothingLeft(s, t);
      u := [];
    } else {
      u := ComposeBoth(s, t);
    }
  }

  lemma {:induction false} ComposeBoth(s: seq<Edit>, t: seq<Edit>) returns (u: seq<Edit>)
    requires After(s) == Before(t) && s != [] && t != [] && !s[0].Delete? && !t[0].Insert?
    ensures Before(u) == Before(s) && After(u) == After(t) && Cost(u) <= Cost(s) + Cost(t)
    decreases |s| + |t|, 0
  {
    assert s == [s[0]] + s[1..] && t == [t[0]] + t[1..];
    Prepend(s[0], s[1..]);
    Prepend(t[0], t[1..]);
    OneEdit(s[0]);
    OneEdit(t[0]);
    assert After(s)[0] == After([s[0]])[0] && Before(t)[0] == Before([t[0]])[0];
    assert After(s)[1..] == After(s[1..]) && Before(t)[1..] == Before(t[1..]);
    MergeWorks(s[0], t[0]);
    var rest := Compose(s[1..], t[1..]);
    ScriptsConcat(Merge(s[0], t[0]), rest);
    u := Merge(s[0], t[0]) + rest;
  }

  lemma Triangle(a: string, b: string, c: string)
    ensures Distance(a, c) <= Distance(a, b) + Distance(b, c)
  {
    var s := BestScript(a, b);
    var t := BestScript(b, c);
    var u := Compose(s, t);
    NoShorterScript(a, c, u);
  }

  lemma {:induction false} AtLeastLengthDifference(a: string, b: string)
    ensures Distance(a, b) >= |a| - |b| && Distance(a, b) >= |b| - |a|
    ensures Distance(a, b) <= if |a| >= |b| then |a| else |b|
    decreases |a| + |b|
  {
    if a != "" && b != "" {
      AtLeastLengthDifference(a[..|a| - 1], b);
      AtLeastLengthDifference(a, b[..|b| - 1]);
      AtLeastLengthDifference(a[..|a| - 1], b[..|b| - 1]);
    }
  }
}
