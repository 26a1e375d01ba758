/** Suggesting a known predicate for an unknown one (crates/aver-core/src/ontology.rs). */
module Suggestions {
  import opened Prelude
  import opened EditDistance

  datatype Candidate = Candidate(accepted: string, canonical: Option<string>)

  function TrimStart(s: string): string {
    if s != "" && IsWhitespace(s[0]) then TrimStart(s[1..]) else s
  }

  function TrimEnd(s: string): string {
    if s != "" && IsWhitespace(s[|s| - 1]) then TrimEnd(s[..|s| - 1]) else s
  }

  function NormalChar(c: char): char {
    if c == '-' || c == ' ' then '_' else if 'A' <= c <= 'Z' then (c as int + 32) as char else c
  }

  /** normalize_predicate_name. */
  function Normalize(name: string): (n: string)
    ensures |n| <= |name|
  {
    var trimmed := TrimEnd(TrimStart(name));
    TrimShortens(name);
    TrimEndShortens(TrimStart(name));
    seq(|trimmed|, i requires 0 <= i < |trimmed| => NormalChar(trimmed[i]))
  }

  lemma TrimShortens(s: string)
    ensures |TrimStart(s)| <= |s|
  {
  }

  lemma TrimEndShortens(s: string)
    ensures |TrimEnd(s)| <= |s|
  {
  }

  /** The length in bytes of the UTF-8 encoding. */
  function Utf8Length(s: string): nat {
    if s == "" then 0
    else
      var n := s[0] as int;
      (if n < 0x80 then 1 else if n < 0x800 then 2 else if n < 0x10000 then 3 else 4) + Utf8Length(s[1..])
  }

  lemma {:induction false} Utf8Says(s: string, c: char)
    ensures Utf8Length(s + [c]) == Utf8Length(s)
              + if c as int <= 127 then 1 else if c as int <= 2047 then 2 else if c as int <= 65535 then 3 else 4
  {
    if s == "" {
      assert s + [c] == [c] && [c][1..] == "";
    } else {
      assert (s + [c])[1..] == s[1..] + [c];
      Utf8Says(s[1..], c);
    }
  }

  function SemanticHint(normalized: string): Option<string> {
    if normalized in {"deprioritizes", "prioritizes", "prioritises", "favors", "favours", "likes", "preference"}
    then Some("prefers")
    else if normalized in {"requires", "needs", "needed_by", "depends", "depends_upon"} then Some("depends_on")
    else if normalized in {"about", "related_to", "associated_with"} then Some("relates_to")
    else if normalized in {"owns", "owner", "owned"} then Some("owns")
    else if normalized in {"tests", "tested_by", "validates"} then Some("tests")
    else if normalized in {"fixes", "resolves", "repairs"} then Some("fixes")
    else None
  }

  /** The rank of a candidate: distance, then byte length, then name. */
  function Rank(normalized: string, c: Candidate): (nat, nat, string) {
    (Distance(normalized, Normalize(c.accepted)), Utf8Length(c.accepted), c.accepted)
  }

  predicate Ahead(a: (nat, nat, string), b: (nat, nat, string)) {
    || a.0 < b.0
    || (a.0 == b.0 && a.1 < b.1)
    || (a.0 == b.0 && a.1 == b.1 && a.2 != b.2 && StringLe(a.2, b.2))
  }

  lemma AheadIsStrictOrder(a: (nat, nat, string), b: (nat, nat, string), c: (nat, nat, string))
    ensures !Ahead(a, a) && (Ahead(a, b) ==> !Ahead(b, a)) && (Ahead(a, b) && Ahead(b, c) ==> Ahead(a, c))
    ensures Ahead(a, b) || Ahead(b, a) || a == b
    ensures Ahead(a, b) && !Ahead(c, b) ==> Ahead(a, c)
  {
    StringsAreOrdered();
  }

  function Threshold(normalized: string, c: Candidate): nat {
    var a, b := Utf8Length(normalized), Utf8Length(c.accepted);
    var longer := if a >= b then a else b;
    if longer <= 4 then 1 else if longer <= 8 then 2 else 3
  }

  /** Among the first `k` candidates none is ahead of `i`, and those as good come later in the list. */
  ghost predicate FirstBestOf(normalized: string, candidates: seq<Candidate>, k: nat, i: nat) {
    && i < k <= |candidates|
    && (forall j :: 0 <= j < k ==> !Ahead(Rank(normalized, candidates[j]), Rank(normalized, candidates[i])))
    && (forall j :: 0 <= j < i ==> Rank(normalized, candidates[j]) != Rank(normalized, candidates[i]))
  }

  /** The candidate the loop settles on. */
  ghost predicate FirstBest(normalized: string, candidates: seq<Candidate>, i: nat) {
    FirstBestOf(normalized, candidates, |candidates|, i)
  }

  lemma OneMore(normalized: string, candidates: seq<Candidate>, k: nat, i: nat)
    requires FirstBestOf(normalized, candidates, k, i) && k < |candidates|
    ensures FirstBestOf(normalized, candidates, k + 1,
                        if Ahead(Rank(normalized, candidates[k]), Rank(normalized, candidates[i])) then k else i)
  {
    var old_, new_ := Rank(normalized, candidates[i]), Rank(normalized, candidates[k]);
    AheadIsStrictOrder(new_, old_, new_);
    if Ahead(new_, old_) {
      forall j | 0 <= j < k
        ensures !Ahead(Rank(normalized, candidates[j]), new_) && Rank(normalized, candidates[j]) != new_ {
        AheadIsStrictOrder(Rank(normalized, candidates[j]), new_, old_);
      }
    }
  }

  ghost predicate FirstNamed(candidates: seq<Candidate>, name: string, i: nat) {
    i < |candidates| && candidates[i].accepted == name && forall j :: 0 <= j < i ==> candidates[j].accepted != name
  }

  method FindNamed(candidates: seq<Candidate>, name: string) returns (found: Option<nat>)
    ensures found.None? <==> forall j :: 0 <= j < |candidates| ==> candidates[j].accepted != name
    ensures found.Some? ==> FirstNamed(candidates, name, found.value)
  {
    for i := 0 to |candidates|
      invariant forall j :: 0 <= j < i ==> candidates[j].accepted != name
    {
      if candidates[i].accepted == name { return Some(i); }
    }
    return None;
  }

  method Best(normalized: string, candidates: seq<Candidate>) returns (best: Option<nat>)
    ensures best.None? <==> candidates == []
    ensures best.Some? ==> FirstBest(normalized, candidates, best.value)
  {
    best := None;
    var bestDistance: nat := 0;
    for i := 0 to |candidates|
      invariant best.None? <==> i == 0
      invariant best.Some? ==> FirstBestOf(normalized, candidates, i, best.value)
      invariant best.Some? ==> bestDistance == Rank(normalized, candidates[best.value]).0
    {
      var c := candidates[i];
      var distance := TwoRows(normalized, Normalize(c.accepted));
      if best.None? {
        AheadIsStrictOrder(Rank(normalized, c), Rank(normalized, c), Rank(normalized, c));
        best, bestDistance := Some(i), distance;
      } else {
        OneMore(normalized, candidates, i, best.value);
        var bestName := candidates[best.value].accepted;
        if distance < bestDistance
           || (distance == bestDistance && Utf8Length(c.accepted) < Utf8Length(bestName))
           || (distance == bestDistance && Utf8Length(c.accepted) == Utf8Length(bestName)
               && c.accepted != bestName && StringLe(c.accepted, bestName))
        {
          best, bestDistance := Some(i), distance;
        }
      }
    }
  }

  /** suggest_unknown_predicate. */
  method Suggest(name: string, candidates: seq<Candidate>) returns (suggestion: Option<Candidate>)
    ensures Suggested(Normalize(name), candidates, suggestion)
    ensures var n := Normalize(name);
            if SemanticHint(n).Some?
               && exists j :: 0 <= j < |candidates| && candidates[j].accepted == SemanticHint(n).value
            then exists i: nat :: FirstNamed(candidates, SemanticHint(n).value, i) && suggestion == Some(candidates[i])
            else if candidates == [] then suggestion == None
            else exists i: nat :: FirstBest(n, candidates, i)
                   && suggestion == if Rank(n, candidates[i]).0 <= Threshold(n, candidates[i])
                                    then Some(candidates[i]) else None
  {
    var normalized := Normalize(name);
    var hint := SemanticHint(normalized);
    if hint.Some? {
      var found := FindNamed(candidates, hint.value);
      HintsAre(normalized);
      if found.Some? { return Some(candidates[found.value]); }
    }
    HintsAre(normalized);
    var best := Best(normalized, candidates);
    if best.None? { return None; }
    SettledIsSuggested(normalized, candidates, best.value);
    var c := candidates[best.value];
    var distance := TwoRows(normalized, Normalize(c.accepted));
    suggestion := if distance <= Threshold(normalized, c) then Some(c) else None;
  }

  // ----- what it means for the names -----

  const Hints: map<string, string> := map[
    "deprioritizes" := "prefers", "prioritizes" := "prefers", "prioritises" := "prefers", "favors" := "prefers",
    "favours" := "prefers", "likes" := "prefers", "preference" := "prefers", "requires" := "depends_on",
    "needs" := "depends_on", "needed_by" := "depends_on", "depends" := "depends_on", "depends_upon" := "depends_on",
    "about" := "relates_to", "related_to" := "relates_to", "associated_with" := "relates_to", "owns" := "owns",
    "owner" := "owns", "owned" := "owns", "tests" := "tests", "tested_by" := "tests", "validates" := "tests",
    "fixes" := "fixes", "resolves" := "fixes", "repairs" := "fixes"]

  lemma HintsAre(n: string)
    ensures SemanticHint(n) == if n in Hints then Some(Hints[n]) else None
  {
  }

  /** One edit is always close enough, two need a name of more than four bytes, three one of more than eight. */
  predicate CloseEnough(distance: nat, n: string, accepted: string) {
    || distance <= 1
    || (distance == 2 && (Utf8Length(n) > 4 || Utf8Length(accepted) > 4))
    || (distance == 3 && (Utf8Length(n) > 8 || Utf8Length(accepted) > 8))
  }

  /** No candidate is nearer, nor as near and shorter, nor as near, as short and lesser. */
  ghost predicate Nearest(n: string, candidates: seq<Candidate>, c: Candidate) {
    && c in candidates
    && forall d :: d in candidates ==>
         var (far, near) := (Distance(n, Normalize(d.accepted)), Distance(n, Normalize(c.accepted)));
         && near <= far
         && (near == far ==> Utf8Length(c.accepted) <= Utf8Length(d.accepted))
         && (near == far && Utf8Length(c.accepted) == Utf8Length(d.accepted) ==> StringLe(c.accepted, d.accepted))
  }

  /** A hinted name that is a candidate is suggested; failing that, the nearest candidate if it is close enough,
      and otherwise none. */
  ghost predicate Suggested(n: string, candidates: seq<Candidate>, suggestion: Option<Candidate>) {
    if n in Hints && exists c :: c in candidates && c.accepted == Hints[n] then
      suggestion.Some? && suggestion.value in candidates && suggestion.value.accepted == Hints[n]
    else
      && (suggestion.Some? ==>
            && Nearest(n, candidates, suggestion.value)
            && CloseEnough(Distance(n, Normalize(suggestion.value.accepted)), n, suggestion.value.accepted))
      && (suggestion.None? ==>
            forall c :: Nearest(n, candidates, c) ==>
              !CloseEnough(Distance(n, Normalize(c.accepted)), n, c.accepted))
  }

  lemma BestIsNearest(n: string, candidates: seq<Candidate>, i: nat)
    requires FirstBest(n, candidates, i)
    ensures Nearest(n, candidates, candidates[i])
    ensures forall c :: Nearest(n, candidates, c) ==> c.accepted == candidates[i].accepted
  {
    StringsAreOrdered();
    forall d | d in candidates
      ensures !Ahead(Rank(n, d), Rank(n, candidates[i]))
    {
      var j :| 0 <= j < |candidates| && candidates[j] == d;
    }
    forall c | Nearest(n, candidates, c) ensures c.accepted == candidates[i].accepted {
      var mine, yours := Rank(n, candidates[i]), Rank(n, c);
      assert candidates[i] in candidates && !Ahead(yours, mine);
    }
  }

  lemma SettledIsSuggested(n: string, candidates: seq<Candidate>, i: nat)
    requires FirstBest(n, candidates, i)
    requires !(n in Hints && exists c :: c in candidates && c.accepted == Hints[n])
    ensures Suggested(n, candidates,
                      if Rank(n, candidates[i]).0 <= Threshold(n, candidates[i]) then Some(candidates[i]) else None)
  {
    BestIsNearest(n, candidates, i);
    ThresholdSays(n, candidates[i]);
  }

  lemma ThresholdSays(n: string, c: Candidate)
    ensures Rank(n, c).0 <= Threshold(n, c) <==> CloseEnough(Distance(n, Normalize(c.accepted)), n, c.accepted)
  {
  }

  /** A name is trimmed, its dashes and spaces become underscores and its ASCII capitals small letters. */
  lemma NormalizeSays(before: string, name: string, after: string)
    requires forall i :: 0 <= i < |before| ==> IsWhitespace(before[i])
    requires forall i :: 0 <= i < |after| ==> IsWhitespace(after[i])
    requires name == "" || (!IsWhitespace(name[0]) && !IsWhitespace(name[|name| - 1]))
    ensures var n := Normalize(before + name + after);
            && |n| == |name|
            && forall i :: 0 <= i < |name| ==>
                 && (name[i] as int == 45 || name[i] as int == 32 ==> n[i] as int == 95)
                 && (65 <= name[i] as int <= 90 ==> n[i] as int == name[i] as int + 32)
                 && (name[i] as int != 45 && name[i] as int != 32 && !(65 <= name[i] as int <= 90) ==> n[i] == name[i])
  {
    if name == "" {
      var all := before + after;
      assert before + name + after == all == all + "" + "";
      StartTrimmed(all, "", "");
    } else {
      StartTrimmed(before, name, after);
      NothingTrimmed(name);
      assert (name + after)[0] == name[0];
      EndTrimmed(name, after);
      assert before + name + after == before + (name + after);
    }
  }

  lemma {:induction false} StartTrimmed(before: string, name: string, after: string)
    requires forall i :: 0 <= i < |before| ==> IsWhitespace(before[i])
    ensures TrimStart(before + name + after) == TrimStart(name + after)
  {
    if before == "" {
      assert before + name + after == name + after;
    } else {
      assert (before + name + after)[1..] == before[1..] + name + after;
      StartTrimmed(before[1..], name, after);
    }
  }

  lemma {:induction false} EndTrimmed(name: string, after: string)
    requires forall i :: 0 <= i < |after| ==> IsWhitespace(after[i])
    ensures TrimEnd(name + after) == TrimEnd(name)
  {
    if after == "" {
      assert name + after == name;
    } else {
      var whole := name + after;
      assert whole[|whole| - 1] == after[|after| - 1];
      assert whole[..|whole| - 1] == name + after[..|after| - 1];
      EndTrimmed(name, after[..|after| - 1]);
    }
  }

  /** The suggestion does not depend on the order the candidates come in, only its canonical name may. */
  lemma BestIsUnique(normalized: string, xs: seq<Candidate>, i: nat, ys: seq<Candidate>, j: nat)
    requires FirstBest(normalized, xs, i) && FirstBest(normalized, ys, j)
    requires forall c :: c in xs <==> c in ys
    ensures xs[i].accepted == ys[j].accepted
  {
    assert xs[i] in ys && ys[j] in xs;
    AheadIsStrictOrder(Rank(normalized, xs[i]), Rank(normalized, ys[j]), Rank(normalized, xs[i]));
  }

  lemma OneLonger(a: string, c: char)
    ensures Distance(a, a + [c]) == 1 && Distance(a + [c], a) == 1
  {
    ZeroIffEqual(a, a);
    LastEdit(a, a, Insert(c));
    OneEdit(Insert(c));
    assert a + Reads(Insert(c)) == a;
    AtLeastLengthDifference(a, a + [c]);
    Symmetric(a, a + [c]);
  }

  lemma TwoLonger(a: string, c: char, d: char)
    ensures Distance(a, a + [c, d]) == 2 && Distance(a + [c, d], a) == 2
  {
    assert a + [c] + [d] == a + [c, d];
    OneLonger(a, c);
    OneLonger(a + [c], d);
    Triangle(a, a + [c], a + [c, d]);
    AtLeastLengthDifference(a, a + [c, d]);
    Symmetric(a, a + [c, d]);
  }

  lemma {:induction false} AsciiLength(s: string)
    requires forall i :: 0 <= i < |s| ==> s[i] as int < 0x80
    ensures Utf8Length(s) == |s|
  {
    if s != "" { AsciiLength(s[1..]); }
  }

  lemma ShorterWins(n: string, near: Candidate, rival: Candidate)
    requires Rank(n, near).0 == Rank(n, rival).0 && Utf8Length(rival.accepted) < Utf8Length(near.accepted)
    ensures FirstBest(n, [near, rival], 1)
  {
    AheadIsStrictOrder(Rank(n, rival), Rank(n, near), Rank(n, rival));
  }

  lemma LowerCaseIsNormal(s: string)
    requires forall i :: 0 <= i < |s| ==> 'a' <= s[i] <= 'z'
    ensures Normalize(s) == s && Utf8Length(s) == |s|
  {
    if s != "" { assert !IsWhitespace(s[0]) && !IsWhitespace(s[|s| - 1]); }
    NothingTrimmed(s);
    assert forall i :: 0 <= i < |s| ==> NormalChar(s[i]) == s[i];
    AsciiLength(s);
  }

  lemma NothingTrimmed(s: string)
    requires s == "" || (!IsWhitespace(s[0]) && !IsWhitespace(s[|s| - 1]))
    ensures TrimStart(s) == s && TrimEnd(s) == s
  {
  }

  /** A shorter name at the same distance can win and then miss its smaller threshold, so that a name
      within its own threshold is not suggested: for "abc", take "abcde" and "a". */
  lemma ShorterRivalHidesMatch(n: string, c: char, d: char, near: Candidate, rival: Candidate)
    requires |n| == 3 && forall i :: 0 <= i < |near.accepted| ==> 'a' <= near.accepted[i] <= 'z'
    requires near.accepted == n + [c, d] && rival.accepted == n[..1]
    ensures Rank(n, near).0 <= Threshold(n, near)
    ensures FirstBest(n, [near, rival], 1) && Rank(n, rival).0 > Threshold(n, rival)
  {
    forall i | 0 <= i < 3 ensures n[i] == near.accepted[i] {}
    LowerCaseIsNormal(n);
    LowerCaseIsNormal(near.accepted);
    LowerCaseIsNormal(rival.accepted);
    TwoLonger(n, c, d);
    TwoLonger(rival.accepted, n[1], n[2]);
    assert rival.accepted + [n[1], n[2]] == n;
    ShorterWins(n, near, rival);
  }
}
