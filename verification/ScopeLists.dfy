/** Scope lists as stored text (crates/aver-server/src/auth.rs): joined by a space, split at ASCII whitespace. */
module ScopeLists {

  predicate AsciiWhitespace(c: char) {
    c == ' ' || c == '\t' || c == '\n' || c == '\r' || c as int == 12
  }

  /** A scope that survives storage: not empty, no whitespace. */
  predicate Word(w: string) {
    w != "" && forall i | 0 <= i < |w| :: !AsciiWhitespace(w[i])
  }

  predicate Words(ws: seq<string>) {
    forall i | 0 <= i < |ws| :: Word(ws[i])
  }

  /** encode_scopes. */
  function Encode(scopes: seq<string>): string {
    if scopes == [] then "" else if |scopes| == 1 then scopes[0] else scopes[0] + " " + Encode(scopes[1..])
  }

  function Flush(word: string): seq<string> { if word == "" then [] else [word] }

  /** The words of `raw`, given the part of a word read so far. */
  function Split(raw: string, word: string): seq<string>
    decreases |raw|
  {
    if raw == "" then Flush(word)
    else if AsciiWhitespace(raw[0]) then Flush(word) + Split(raw[1..], "")
    else Split(raw[1..], word + [raw[0]])
  }

  /** decode_scopes. */
  function Decode(raw: string): seq<string> { Split(raw, "") }

  lemma {:induction false} SplitGivesWords(raw: string, word: string)
    requires word == "" || Word(word)
    ensures Words(Split(raw, word))
    decreases |raw|
  {
    if raw != "" {
      if AsciiWhitespace(raw[0]) { SplitGivesWords(raw[1..], ""); } else { SplitGivesWords(raw[1..], word + [raw[0]]); }
    }
  }

  lemma {:induction false} SplitReadsWord(w: string, rest: string, word: string)
    requires forall i :: 0 <= i < |w| ==> !AsciiWhitespace(w[i])
    ensures Split(w + rest, word) == Split(rest, word + w)
    decreases |w|
  {
    if w == "" {
      assert w + rest == rest && word + w == word;
    } else {
      assert (w + rest)[1..] == w[1..] + rest;
      assert word + w == word + [w[0]] + w[1..];
      SplitReadsWord(w[1..], rest, word + [w[0]]);
    }
  }

  lemma {:induction false} DecodeEncodes(scopes: seq<string>)
    requires Words(scopes)
    ensures Decode(Encode(scopes)) == scopes
    decreases |scopes|
  {
    if |scopes| == 1 {
      SplitReadsWord(scopes[0], "", "");
      assert scopes[0] + "" == scopes[0] && "" + scopes[0] == scopes[0];
      assert Split("", scopes[0]) == [scopes[0]] == scopes;
    } else if |scopes| > 1 {
      var rest := " " + Encode(scopes[1..]);
      assert Encode(scopes) == scopes[0] + rest;
      SplitReadsWord(scopes[0], rest, "");
      assert "" + scopes[0] == scopes[0] && rest[1..] == Encode(scopes[1..]);
      DecodeEncodes(scopes[1..]);
      assert scopes == [scopes[0]] + scopes[1..];
    }
  }

  /** The five characters Rust calls ASCII white space separate scopes, and scopes are joined by one space. */
  lemma SeparatorsAre(c: char)
    ensures Decode("a" + [c] + "b") == ["a", "b"] <==>
              c as int == 32 || c as int == 9 || c as int == 10 || c as int == 12 || c as int == 13
  {
    var raw := "a" + [c] + "b";
    var rest := [c] + "b";
    assert raw == "a" + rest && raw[1..] == rest && rest[1..] == "b" && "b"[1..] == "";
    assert "" + ['a'] == "a" && "" + ['b'] == "b" && "a" + [c] + ['b'] == ['a', c, 'b'];
    assert Split("", "b") == ["b"] && Split("b", "") == Split("", "" + ['b']);
    assert Split(raw, "") == Split(rest, "" + ['a']);
    if AsciiWhitespace(c) {
      assert Split(rest, "a") == ["a"] + ["b"];
    } else {
      assert Split(rest, "a") == Split("b", "a" + [c]) == Split("", "a" + [c] + ['b']) == [['a', c, 'b']];
    }
  }

  lemma {:induction false} JoinedBySpaces(scopes: seq<string>, last: string)
    requires scopes != []
    ensures Encode(scopes + [last]) == Encode(scopes) + " " + last
    decreases |scopes|
  {
    var all := scopes + [last];
    if |scopes| == 1 {
      assert all[1..] == [last];
    } else {
      assert all[1..] == scopes[1..] + [last];
      JoinedBySpaces(scopes[1..], last);
    }
  }

  /** A list comes back as it was stored exactly when every scope is a word. */
  lemma RoundTrip(scopes: seq<string>)
    ensures Decode(Encode(scopes)) == scopes <==> Words(scopes)
  {
    SplitGivesWords(Encode(scopes), "");
    if Words(scopes) { DecodeEncodes(scopes); }
  }

  /** Storing what was read changes nothing further: a token's text survives every refresh. */
  lemma Normalised(raw: string)
    ensures Decode(Encode(Decode(raw))) == Decode(raw)
    ensures Encode(Decode(Encode(Decode(raw)))) == Encode(Decode(raw))
  {
    SplitGivesWords(raw, "");
    DecodeEncodes(Decode(raw));
  }
}
