/** Vocabulary shared by every module: optional values, results, total orders,
    and the sorted listing of a finite set that an ORDER BY query returns. */
module Prelude {
  datatype Option<+T> = None | Some(value: T)

  datatype Result<+T, +E> = Ok(value: T) | Err(error: E)

  ghost predicate TotalOrder<T(!new)>(le: (T, T) -> bool) {
    && (forall x :: le(x, x))
    && (forall x, y :: le(x, y) && le(y, x) ==> x == y)
    && (forall x, y, z :: le(x, y) && le(y, z) ==> le(x, z))
    && (forall x, y :: le(x, y) || le(y, x))
  }

  predicate IntLe(x: int, y: int) { x <= y }

  predicate CharLe(x: char, y: char) { x <= y }

  /** Lexicographic order built from an order on the elements. */
  predicate LexLe<T(==)>(le: (T, T) -> bool, a: seq<T>, b: seq<T>) {
    if a == [] then true
    else if b == [] then false
    else if a[0] == b[0] then LexLe(le, a[1..], b[1..])
    else le(a[0], b[0])
  }

  /** Rust compares strings byte by byte, which for UTF-8 is code point order. */
  predicate StringLe(a: string, b: string) { LexLe(CharLe, a, b) }

  lemma LexReflexive<T(!new)>(le: (T, T) -> bool, a: seq<T>)
    ensures LexLe(le, a, a)
  {
  }

  lemma {:induction false} LexAntisymmetric<T(!new)>(le: (T, T) -> bool, a: seq<T>, b: seq<T>)
    requires TotalOrder(le) && LexLe(le, a, b) && LexLe(le, b, a)
    ensures a == b
  {
    if a != [] && b != [] && a[0] == b[0] {
      LexAntisymmetric(le, a[1..], b[1..]);
      assert a == [a[0]] + a[1..] && b == [b[0]] + b[1..];
    }
  }

  lemma {:induction false} LexTransitive<T(!new)>(le: (T, T) -> bool, a: seq<T>, b: seq<T>, c: seq<T>)
    requires TotalOrder(le) && LexLe(le, a, b) && LexLe(le, b, c)
    ensures LexLe(le, a, c)
  {
    if a != [] && a[0] == b[0] && b[0] == c[0] {
      LexTransitive(le, a[1..], b[1..], c[1..]);
    }
  }

  lemma {:induction false} LexTotal<T(!new)>(le: (T, T) -> bool, a: seq<T>, b: seq<T>)
    requires TotalOrder(le)
    ensures LexLe(le, a, b) || LexLe(le, b, a)
  {
    if a != [] && b != [] && a[0] == b[0] {
      LexTotal(le, a[1..], b[1..]);
    }
  }

  lemma LexIsTotalOrder<T(!new)>(le: (T, T) -> bool)
    requires TotalOrder(le)
    ensures TotalOrder((a: seq<T>, b: seq<T>) => LexLe(le, a, b))
  {
    var lex := (a: seq<T>, b: seq<T>) => LexLe(le, a, b);
    forall x { LexReflexive(le, x); }
    forall x, y | lex(x, y) && lex(y, x) ensures x == y { LexAntisymmetric(le, x, y); }
    forall x, y, z | lex(x, y) && lex(y, z) ensures lex(x, z) { LexTransitive(le, x, y, z); }
    forall x, y ensures lex(x, y) || lex(y, x) { LexTotal(le, x, y); }
  }

  lemma StringsAreOrdered()
    ensures TotalOrder(StringLe)
  {
    LexIsTotalOrder(CharLe);
    var lex := (a: string, b: string) => LexLe(CharLe, a, b);
    assert forall a, b :: StringLe(a, b) == lex(a, b);
  }

  ghost predicate StrictlySorted<T(!new)>(le: (T, T) -> bool, s: seq<T>) {
    forall i, j :: 0 <= i < j < |s| ==> le(s[i], s[j]) && s[i] != s[j]
  }

  /** A strictly sorted list is fixed by its elements. */
  lemma {:induction false} SortedIsUnique<T(!new)>(le: (T, T) -> bool, a: seq<T>, b: seq<T>)
    requires TotalOrder(le) && StrictlySorted(le, a) && StrictlySorted(le, b)
    requires forall x :: x in a <==> x in b
    ensures a == b
    decreases |a|
  {
    NoneIfNone(a, b);
    NoneIfNone(b, a);
    if a != [] {
      SameFirst(le, a, b);
      SameRest(le, a, b);
      SortedIsUnique(le, a[1..], b[1..]);
    }
  }

  lemma NoneIfNone<T>(a: seq<T>, b: seq<T>)
    requires forall x :: x in a ==> x in b
    ensures a != [] ==> b != []
  {
    if a != [] {
      var x := a[0];
      assert x in b;
    }
  }

  lemma SameFirst<T(!new)>(le: (T, T) -> bool, a: seq<T>, b: seq<T>)
    requires TotalOrder(le) && StrictlySorted(le, a) && StrictlySorted(le, b) && a != [] && b != []
    requires forall x :: x in a <==> x in b
    ensures a[0] == b[0]
  {
    assert a[0] in b && b[0] in a;
    var i :| 0 <= i < |b| && b[i] == a[0];
    var j :| 0 <= j < |a| && a[j] == b[0];
    assert le(b[0], b[i]) && le(a[0], a[j]);
  }

  lemma SameRest<T(!new)>(le: (T, T) -> bool, a: seq<T>, b: seq<T>)
    requires StrictlySorted(le, a) && StrictlySorted(le, b) && a != [] && b != [] && a[0] == b[0]
    requires forall x :: x in a <==> x in b
    ensures forall x :: x in a[1..] <==> x in b[1..]
  {
    RestLosesFirst(le, a);
    RestLosesFirst(le, b);
  }

  lemma RestLosesFirst<T(!new)>(le: (T, T) -> bool, a: seq<T>)
    requires StrictlySorted(le, a) && a != []
    ensures forall x :: x in a[1..] <==> x in a && x != a[0]
  {
    assert a == [a[0]] + a[1..];
    forall x | x in a[1..] ensures x != a[0] {
      var i :| 0 <= i < |a[1..]| && a[1..][i] == x;
      assert a[i + 1] == x;
    }
  }

  ghost predicate IsLeast<T>(le: (T, T) -> bool, least: T, s: set<T>) {
    least in s && forall x :: x in s ==> le(least, x)
  }

  lemma {:induction false} LeastExists<T(!new)>(le: (T, T) -> bool, s: set<T>)
    requires TotalOrder(le) && s != {}
    ensures exists least :: IsLeast(le, least, s)
  {
    var pick :| pick in s;
    if s == {pick} {
      assert IsLeast(le, pick, s);
    } else {
      LeastExists(le, s - {pick});
      var rest :| IsLeast(le, rest, s - {pick});
      assert IsLeast(le, if le(pick, rest) then pick else rest, s);
    }
  }

  /** The rows of a set in ascending order, as `SELECT .. ORDER BY` lists them. */
  function SortSet<T(!new)>(le: (T, T) -> bool, s: set<T>): (r: seq<T>)
    requires TotalOrder(le)
    ensures forall x :: x in r <==> x in s
    ensures StrictlySorted(le, r)
    ensures |r| == |s|
  {
    if s == {} then []
    else
      LeastExists(le, s);
      assert exists least :: least in s && forall x :: x in s ==> le(least, x) by {
        var least :| IsLeast(le, least, s);
      }
      var least :| least in s && forall x :: x in s ==> le(least, x);
      [least] + SortSet(le, s - {least})
  }

  ghost predicate Distinct<T>(s: seq<T>) {
    forall i, j :: 0 <= i < j < |s| ==> s[i] != s[j]
  }

  /** Unicode White_Space, the characters Rust's `trim` removes. */
  predicate IsWhitespace(c: char) {
    var n := c as int;
    9 <= n <= 13 || n == 0x20 || n == 0x85 || n == 0xA0 || n == 0x1680 || 0x2000 <= n <= 0x200A
    || n == 0x2028 || n == 0x2029 || n == 0x202F || n == 0x205F || n == 0x3000
  }

  predicate Blank(s: string) {
    forall i | 0 <= i < |s| :: IsWhitespace(s[i])
  }
}
