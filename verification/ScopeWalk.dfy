/** Scope walks (crates/aver-core/src/store.rs, crates/aver-core/src/graph.rs): path prefixes
    decided by escaped LIKE patterns. */
module ScopeWalk {

  datatype Walk = Exact | Ancestors | Descendants | Any

  // ----- LIKE as SQLite evaluates it -----

  /** SQLite's LIKE ignores the case of ASCII letters, and of no others. */
  function Fold(c: char): char {
    if 'A' <= c <= 'Z' then (c as int + 32) as char else c
  }

  function Folded(s: string): (f: string)
    ensures |f| == |s| && forall i :: 0 <= i < |s| ==> f[i] == Fold(s[i])
  {
    seq(|s|, i requires 0 <= i < |s| => Fold(s[i]))
  }

  /** `s LIKE pattern ESCAPE '\'`. A trailing escape character matches nothing. */
  predicate Like(pattern: string, s: string)
    decreases |pattern|, |s|
  {
    if pattern == "" then s == ""
    else if pattern[0] == '%' then Like(pattern[1..], s) || (s != "" && Like(pattern, s[1..]))
    else if pattern[0] == '_' then s != "" && Like(pattern[1..], s[1..])
    else if pattern[0] == '\\' then
      |pattern| > 1 && s != "" && Fold(s[0]) == Fold(pattern[1]) && Like(pattern[2..], s[1..])
    else s != "" && Fold(s[0]) == Fold(pattern[0]) && Like(pattern[1..], s[1..])
  }

  predicate Metachar(c: char) { c == '\\' || c == '_' || c == '%' }

  /** A pattern that matches `value` literally. */
  function Escape(value: string): string {
    if value == "" then ""
    else (if Metachar(value[0]) then ['\\', value[0]] else [value[0]]) + Escape(value[1..])
  }

  lemma {:induction false} EscapeAppend(a: string, b: string)
    ensures Escape(a + b) == Escape(a) + Escape(b)
  {
    if a == "" {
      assert a + b == b;
    } else {
      assert (a + b)[1..] == a[1..] + b;
      EscapeAppend(a[1..], b);
    }
  }

  /** escape_like_pattern: the loop over the characters. */
  method EscapeLikePattern(value: string) returns (escaped: string)
    ensures escaped == Escape(value)
  {
    escaped := "";
    for i := 0 to |value|
      invariant escaped == Escape(value[..i])
    {
      assert value[..i + 1] == value[..i] + [value[i]];
      EscapeAppend(value[..i], [value[i]]);
      if Metachar(value[i]) {
        escaped := escaped + ['\\'];
      }
      escaped := escaped + [value[i]];
    }
    assert value[..|value|] == value;
  }

  /** SQL's replace() for a single character. */
  function ReplaceChar(s: string, c: char, with: string): string {
    if s == "" then "" else (if s[0] == c then with else [s[0]]) + ReplaceChar(s[1..], c, with)
  }

  lemma {:induction false} ReplaceAppend(a: string, b: string, c: char, with: string)
    ensures ReplaceChar(a + b, c, with) == ReplaceChar(a, c, with) + ReplaceChar(b, c, with)
  {
    if a == "" {
      assert a + b == b;
    } else {
      assert (a + b)[1..] == a[1..] + b;
      ReplaceAppend(a[1..], b, c, with);
    }
  }

  function SqlEscape(scope: string): string {
    ReplaceChar(ReplaceChar(ReplaceChar(scope, '\\', "\\\\"), '_', "\\_"), '%', "\\%")
  }

  lemma SqlEscapeOne(c: char)
    ensures SqlEscape([c]) == Escape([c])
  {
    ReplaceOne(c, '\\', "\\\\");
    if c == '\\' {
      var twice := ['\\', '\\'];
      assert ReplaceChar(twice, '_', "\\_") == twice && ReplaceChar(twice, '%', "\\%") == twice by {
        assert twice[1..] == ['\\'] && twice[1..][1..] == "";
      }
    } else {
      ReplaceOne(c, '_', "\\_");
      ReplaceOne(c, '%', "\\%");
      if c == '_' {
        var marked := ['\\', '_'];
        assert ReplaceChar(marked, '%', "\\%") == marked by { assert marked[1..] == ['_'] && marked[1..][1..] == ""; }
      }
    }
    assert [c][1..] == "";
  }

  lemma ReplaceOne(c: char, d: char, with: string)
    ensures ReplaceChar([c], d, with) == if c == d then with else [c]
  {
    assert [c][1..] == "";
  }

  /** The three nested replacements in the query escape as the loop does. */
  lemma {:induction false} SqlEscapeIsEscape(scope: string)
    ensures SqlEscape(scope) == Escape(scope)
  {
    if scope != "" {
      var a, b := [scope[0]], scope[1..];
      assert scope == a + b;
      ReplaceAppend(a, b, '\\', "\\\\");
      var a1, b1 := ReplaceChar(a, '\\', "\\\\"), ReplaceChar(b, '\\', "\\\\");
      ReplaceAppend(a1, b1, '_', "\\_");
      ReplaceAppend(ReplaceChar(a1, '_', "\\_"), ReplaceChar(b1, '_', "\\_"), '%', "\\%");
      SqlEscapeOne(scope[0]);
      SqlEscapeIsEscape(b);
      EscapeAppend(a, b);
    }
  }

  // ----- what the patterns decide -----

  /** `s` starts with `prefix`, ASCII case aside. */
  predicate StartsWith(prefix: string, s: string) {
    |prefix| <= |s| && Folded(prefix) == Folded(s[..|prefix|])
  }

  lemma {:induction false} PercentMatchesAll(s: string)
    ensures Like("%", s)
  {
    if s != "" { PercentMatchesAll(s[1..]); }
  }

  lemma {:induction false} EscapedPrefix(value: string, tail: string, s: string)
    ensures Like(Escape(value) + tail, s) <==> StartsWith(value, s) && Like(tail, s[|value|..])
    decreases |value|
  {
    var pattern := Escape(value) + tail;
    if value == "" {
      assert pattern == tail;
    } else {
      var head := if Metachar(value[0]) then ['\\', value[0]] else [value[0]];
      assert pattern == head + (Escape(value[1..]) + tail);
      assert pattern[|head|..] == Escape(value[1..]) + tail;
      assert Like(pattern, s) <==>
          s != "" && Fold(s[0]) == Fold(value[0]) && Like(Escape(value[1..]) + tail, s[1..]);
      if s != "" {
        EscapedPrefix(value[1..], tail, s[1..]);
        StartsWithHead(value, s);
      }
    }
  }

  lemma StartsWithHead(value: string, s: string)
    requires value != "" && s != ""
    ensures StartsWith(value, s) <==> Fold(value[0]) == Fold(s[0]) && StartsWith(value[1..], s[1..])
  {
    if |value| <= |s| {
      var f, g := Folded(value), Folded(s[..|value|]);
      var f1, g1 := Folded(value[1..]), Folded(s[1..][..|value| - 1]);
      assert f == [f[0]] + f1;
      assert g == [g[0]] + g1;
    }
  }

  /** The pattern built from a scope matches exactly the strings below it. */
  lemma PatternIsPrefix(scope: string, s: string)
    ensures Like(Escape(scope) + "/%", s) <==> StartsWith(scope + "/", s)
  {
    EscapedPrefix(scope + "/", "%", s);
    EscapeAppend(scope, "/");
    assert Escape("/") == "/";
    assert Escape(scope + "/") + "%" == Escape(scope) + "/%";
    if StartsWith(scope + "/", s) { PercentMatchesAll(s[|scope| + 1..]); }
  }

  // ----- the walks -----

  /** The WHERE fragment scope_filter_sql builds, evaluated at a row's scope. */
  predicate Admits(scope: string, walk: Walk, row: string) {
    match walk
    case Any => true
    case Exact => row == scope
    case Descendants => row == scope || Like(Escape(scope) + "/%", row)
    case Ancestors => row == "global" || row == scope || Like(SqlEscape(row) + "/%", scope)
  }

  /** Path prefixes are what the walks decide, ASCII case aside. */
  lemma WalksArePathPrefixes(scope: string, row: string)
    ensures Admits(scope, Descendants, row) <==> row == scope || StartsWith(scope + "/", row)
    ensures Admits(scope, Ancestors, row) <==> row == "global" || row == scope || StartsWith(row + "/", scope)
  {
    PatternIsPrefix(scope, row);
    SqlEscapeIsEscape(row);
    PatternIsPrefix(row, scope);
  }

  lemma WalksAreConverse(a: string, b: string)
    ensures Admits(b, Ancestors, a) <==> a == "global" || Admits(a, Descendants, b)
  {
    WalksArePathPrefixes(a, b);
    WalksArePathPrefixes(b, a);
  }

  lemma {:induction false} DescentIsPartialOrder(a: string, b: string, c: string)
    ensures Admits(a, Descendants, a)
    ensures Admits(a, Descendants, b) && Admits(b, Descendants, a) ==> a == b
    ensures Admits(a, Descendants, b) && Admits(b, Descendants, c) ==> Admits(a, Descendants, c)
  {
    WalksArePathPrefixes(a, b);
    WalksArePathPrefixes(b, a);
    WalksArePathPrefixes(b, c);
    WalksArePathPrefixes(a, c);
    if StartsWith(a + "/", b) && StartsWith(b + "/", c) {
      var p, n := a + "/", |a| + 1;
      assert forall i :: 0 <= i < n ==>
          Folded(p)[i] == Folded(b[..n])[i] && Folded(b + "/")[i] == Folded(c[..|b| + 1])[i] && (b + "/")[i] == b[i];
      assert forall i :: 0 <= i < n ==> Folded(p)[i] == Folded(c[..n])[i];
    }
  }

  // ----- case -----

  /** `row` is at or below `scope`, case included. */
  predicate AtOrBelow(scope: string, row: string) {
    row == scope || (|scope| < |row| && row[..|scope| + 1] == scope + "/")
  }

  predicate Letter(c: char) { 'a' <= c <= 'z' || 'A' <= c <= 'Z' }

  function SwapCase(c: char): char {
    if 'a' <= c <= 'z' then (c as int - 32) as char else Fold(c)
  }

  /** Descendants respects case on every row exactly when the scope has no ASCII letter. */
  lemma CaseMattersExactly(scope: string)
    ensures (forall row :: Admits(scope, Descendants, row) <==> AtOrBelow(scope, row))
            <==> (forall i :: 0 <= i < |scope| ==> !Letter(scope[i]))
  {
    if forall i :: 0 <= i < |scope| ==> !Letter(scope[i]) {
      forall row ensures Admits(scope, Descendants, row) <==> AtOrBelow(scope, row) {
        WalksArePathPrefixes(scope, row);
        if StartsWith(scope + "/", row) { SameWithoutLetters(scope, row); }
      }
    } else {
      var i :| 0 <= i < |scope| && Letter(scope[i]);
      var row := scope[i := SwapCase(scope[i])] + "/";
      assert row[i] != scope[i] && row[..|scope| + 1] == row;
      assert (scope + "/")[i] == scope[i];
      assert !AtOrBelow(scope, row);
      WalksArePathPrefixes(scope, row);
      assert Folded(scope + "/") == Folded(row);
    }
  }

  lemma SameWithoutLetters(scope: string, row: string)
    requires forall i :: 0 <= i < |scope| ==> !Letter(scope[i])
    requires StartsWith(scope + "/", row)
    ensures AtOrBelow(scope, row)
  {
    var n := |scope| + 1;
    forall i | 0 <= i < n ensures row[..n][i] == (scope + "/")[i] {
      assert Folded(scope + "/")[i] == Folded(row[..n])[i];
    }
  }

  /** No letter stands before a slash. */
  ghost predicate PlainParents(scope: string) {
    forall i, k :: 0 <= i < k < |scope| && scope[k] == '/' ==> !Letter(scope[i])
  }

  /** Ancestors respects case on every row exactly when no letter of the scope stands before a slash. */
  lemma AncestorCaseMattersExactly(scope: string)
    ensures (forall row :: Admits(scope, Ancestors, row) <==> row == "global" || AtOrBelow(row, scope))
            <==> PlainParents(scope)
  {
    if PlainParents(scope) {
      forall row ensures Admits(scope, Ancestors, row) <==> row == "global" || AtOrBelow(row, scope) {
        WalksArePathPrefixes(scope, row);
        if StartsWith(row + "/", scope) { SamePlainParent(scope, row); }
        if AtOrBelow(row, scope) && row != scope { assert StartsWith(row + "/", scope); }
      }
    } else {
      var i, k :| 0 <= i < k < |scope| && scope[k] == '/' && Letter(scope[i]);
      var row := scope[..k][i := SwapCase(scope[i])];
      SwappedParent(scope, k, i);
      if row == "global" {
        var j := if i == 0 then 1 else 0;
        assert scope[j] == row[j] && Letter(scope[j]);
        SwappedParent(scope, k, j);
        var other := scope[..k][j := SwapCase(scope[j])];
        assert other[i] == scope[i] && row[i] != scope[i];
      }
    }
  }

  lemma SamePlainParent(scope: string, row: string)
    requires PlainParents(scope) && StartsWith(row + "/", scope)
    ensures AtOrBelow(row, scope)
  {
    var n := |row|;
    SlashFollows(row, scope);
    forall i | 0 <= i <= n ensures scope[..n + 1][i] == (row + "/")[i] {
      assert Folded(row + "/")[i] == Folded(scope[..n + 1])[i];
      if i < n { assert !Letter(scope[i]); }
    }
  }

  /** A parent path with the case of one letter swapped is admitted, though it is not above the scope. */
  lemma SwappedParent(scope: string, k: nat, i: nat)
    requires i < k < |scope| && scope[k] == '/' && Letter(scope[i])
    ensures var row := scope[..k][i := SwapCase(scope[i])];
            Admits(scope, Ancestors, row) && !AtOrBelow(row, scope) && row[i] != scope[i]
  {
    var row := scope[..k][i := SwapCase(scope[i])];
    WalksArePathPrefixes(scope, row);
    assert Folded(row + "/") == Folded(scope[..k + 1]);
    assert (row + "/")[i] == row[i] != scope[i] == scope[..k + 1][i];
  }

  /** A store whose scopes are all lower case never sees the difference. */
  lemma LowerCaseScopesAgree(scope: string, row: string)
    requires Folded(scope) == scope && Folded(row) == row
    ensures Admits(scope, Descendants, row) <==> AtOrBelow(scope, row)
    ensures Admits(scope, Ancestors, row) <==> row == "global" || AtOrBelow(row, scope)
  {
    WalksArePathPrefixes(scope, row);
    FoldedPath(scope, row);
    FoldedPath(row, scope);
  }

  lemma FoldedPath(scope: string, row: string)
    requires Folded(scope) == scope && Folded(row) == row
    ensures StartsWith(scope + "/", row) <==> |scope| < |row| && row[..|scope| + 1] == scope + "/"
  {
    var n := |scope| + 1;
    assert Folded(scope + "/") == scope + "/" by {
      assert forall i :: 0 <= i < |scope| ==> Folded(scope + "/")[i] == Folded(scope)[i];
    }
    if n <= |row| {
      assert forall i :: 0 <= i < n ==> Folded(row[..n])[i] == Folded(row)[i];
      assert Folded(row[..n]) == row[..n];
    }
  }

  /** "Proj/a" walks up to "proj". */
  lemma CaseIsIgnoredUpwards(scope: string, row: string)
    requires scope == "Proj/a" && row == "proj"
    ensures Admits(scope, Ancestors, row) && !AtOrBelow(row, scope)
  {
    SwappedParent(scope, 4, 0);
    assert scope[..4][0 := SwapCase(scope[0])] == row;
  }

  /** "Proj" walks down into "proj/a". */
  lemma CaseIsIgnored(scope: string, row: string)
    requires scope == "Proj" && row == "proj/a"
    ensures Admits(scope, Descendants, row) && !AtOrBelow(scope, row)
  {
    WalksArePathPrefixes(scope, row);
    var slash := scope + "/";
    assert Folded(slash) == Folded(row[..5]);
    assert row[..5][0] == 'p' && slash[0] == 'P';
  }

  // ----- hyperedges -----

  /** hyperedges_in_scope: hyperedges have no scope of their own. */
  predicate HyperedgesInScope(scope: string, walk: Walk) {
    match walk
    case Any | Ancestors => true
    case Exact | Descendants => scope == "global"
  }

  /** They are admitted exactly as a row scoped "global" would be. */
  lemma HyperedgesAreGlobalRows(scope: string, walk: Walk)
    ensures HyperedgesInScope(scope, walk) <==> Admits(scope, walk, "global")
  {
    WalksArePathPrefixes(scope, "global");
    SlashFollows(scope, "global");
  }

  lemma SlashFollows(scope: string, row: string)
    ensures StartsWith(scope + "/", row) ==> row[|scope|] == '/'
  {
    if StartsWith(scope + "/", row) {
      assert Folded(row[..|scope| + 1])[|scope|] == Folded(scope + "/")[|scope|];
    }
  }
}
