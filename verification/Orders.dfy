/** Positions in lists, strict total orders and the lexicographic order Python uses on strings and tuples. */
module Orders {
  /** Position of the first occurrence (`list.index`). */
  function IndexOf<T(==)>(s: seq<T>, x: T): (i: nat)
    requires x in s
    ensures i < |s| && s[i] == x && forall j :: 0 <= j < i ==> s[j] != x
  {
    if s[0] == x then 0 else 1 + IndexOf(s[1..], x)
  }

  ghost predicate StrictTotal<T(!new)>(less: (T, T) -> bool) {
    && (forall x :: !less(x, x))
    && (forall x, y, z :: less(x, y) && less(y, z) ==> less(x, z))
    && (forall x, y :: x == y || less(x, y) || less(y, x))
  }

  predicate Lex<T(==)>(less: (T, T) -> bool, a: seq<T>, b: seq<T>) {
    b != [] && (a == [] || less(a[0], b[0]) || (a[0] == b[0] && Lex(less, a[1..], b[1..])))
  }

  lemma {:induction false} LexIrreflexive<T(!new)>(less: (T, T) -> bool, a: seq<T>)
    requires StrictTotal(less)
    ensures !Lex(less, a, a)
  {
    if a != [] {
      LexIrreflexive(less, a[1..]);
    }
  }

  lemma {:induction false} LexTransitive<T(!new)>(less: (T, T) -> bool, a: seq<T>, b: seq<T>, c: seq<T>)
    requires StrictTotal(less) && Lex(less, a, b) && Lex(less, b, c)
    ensures Lex(less, a, c)
  {
    if a != [] && a[0] == b[0] == c[0] {
      LexTransitive(less, a[1..], b[1..], c[1..]);
    }
  }

  lemma {:induction false} LexTotal<T(!new)>(less: (T, T) -> bool, a: seq<T>, b: seq<T>)
    requires StrictTotal(less)
    ensures a == b || Lex(less, a, b) || Lex(less, b, a)
  {
    if a != [] && b != [] && a[0] == b[0] {
      LexTotal(less, a[1..], b[1..]);
      assert a == [a[0]] + a[1..] && b == [b[0]] + b[1..];
    }
  }

  const CHAR_LESS: (char, char) -> bool := (x, y) => x < y

  const STRING_LESS: (string, string) -> bool := (a, b) => Lex(CHAR_LESS, a, b)

  const TUPLE_LESS: (seq<string>, seq<string>) -> bool := (a, b) => Lex(STRING_LESS, a, b)

  lemma StringOrder()
    ensures StrictTotal(STRING_LESS)
  {
    assert StrictTotal(CHAR_LESS);
    forall a ensures !STRING_LESS(a, a) {
      LexIrreflexive(CHAR_LESS, a);
    }
    forall a, b, c | STRING_LESS(a, b) && STRING_LESS(b, c) ensures STRING_LESS(a, c) {
      LexTransitive(CHAR_LESS, a, b, c);
    }
    forall a, b ensures a == b || STRING_LESS(a, b) || STRING_LESS(b, a) {
      LexTotal(CHAR_LESS, a, b);
    }
  }

  // ----- lexicographic order said directly: after a common part, the first one ends or has the smaller element -----

  predicate LexSplitsAt<T(==)>(less: (T, T) -> bool, a: seq<T>, b: seq<T>, n: nat) {
    n <= |a| && n < |b| && a[..n] == b[..n] && (n < |a| ==> less(a[n], b[n]))
  }

  lemma {:induction false} LexSplits<T(!new)>(less: (T, T) -> bool, a: seq<T>, b: seq<T>)
    ensures Lex(less, a, b) <==> exists n: nat :: LexSplitsAt(less, a, b, n)
    decreases |a|
  {
    if a != [] && b != [] && a[0] == b[0] && !less(a[0], b[0]) {
      LexSplits(less, a[1..], b[1..]);
      TailsSplit(less, a, b);
    } else if n: nat :| LexSplitsAt(less, a, b, n) {
      if n > 0 {
        assert a[..n][0] == a[0] && b[..n][0] == b[0];
      }
    } else {
      assert !LexSplitsAt(less, a, b, 0);
    }
  }

  lemma TailsSplit<T(!new)>(less: (T, T) -> bool, a: seq<T>, b: seq<T>)
    requires a != [] && b != [] && a[0] == b[0] && !less(a[0], b[0])
    ensures (exists n: nat :: LexSplitsAt(less, a, b, n)) <==> (exists n: nat :: LexSplitsAt(less, a[1..], b[1..], n))
  {
    if n: nat :| LexSplitsAt(less, a, b, n) {
      assert n > 0 && a[1..][..n - 1] == a[..n][1..] && b[1..][..n - 1] == b[..n][1..];
      assert LexSplitsAt(less, a[1..], b[1..], n - 1);
    }
    if n: nat :| LexSplitsAt(less, a[1..], b[1..], n) {
      assert a[..n + 1] == [a[0]] + a[1..][..n] && b[..n + 1] == [b[0]] + b[1..][..n];
      assert LexSplitsAt(less, a, b, n + 1);
    }
  }

  predicate SplitsAt(a: string, b: string, n: nat) {
    n <= |a| && n < |b| && a[..n] == b[..n] && (n < |a| ==> a[n] < b[n])
  }

  ghost predicate LexicallyBefore(a: string, b: string) {
    exists n: nat :: SplitsAt(a, b, n)
  }

  lemma StringOrderIsLexical(a: string, b: string)
    ensures STRING_LESS(a, b) <==> LexicallyBefore(a, b)
  {
    LexSplits(CHAR_LESS, a, b);
    assert forall n: nat :: LexSplitsAt(CHAR_LESS, a, b, n) <==> SplitsAt(a, b, n);
  }

  ghost predicate TupleSplitsAt(a: seq<string>, b: seq<string>, n: nat) {
    n <= |a| && n < |b| && a[..n] == b[..n] && (n < |a| ==> LexicallyBefore(a[n], b[n]))
  }

  ghost predicate TupleBefore(a: seq<string>, b: seq<string>) {
    exists n: nat :: TupleSplitsAt(a, b, n)
  }

  lemma TupleOrderIsLexical(a: seq<string>, b: seq<string>)
    ensures TUPLE_LESS(a, b) <==> TupleBefore(a, b)
  {
    LexSplits(STRING_LESS, a, b);
    forall n: nat ensures LexSplitsAt(STRING_LESS, a, b, n) <==> TupleSplitsAt(a, b, n) {
      if n < |a| && n < |b| {
        StringOrderIsLexical(a[n], b[n]);
      }
    }
  }

  lemma TupleOrder()
    ensures StrictTotal(TUPLE_LESS)
  {
    StringOrder();
    forall a ensures !TUPLE_LESS(a, a) {
      LexIrreflexive(STRING_LESS, a);
    }
    forall a, b, c | TUPLE_LESS(a, b) && TUPLE_LESS(b, c) ensures TUPLE_LESS(a, c) {
      LexTransitive(STRING_LESS, a, b, c);
    }
    forall a, b ensures a == b || TUPLE_LESS(a, b) || TUPLE_LESS(b, a) {
      LexTotal(STRING_LESS, a, b);
    }
  }

  ghost predicate Ascending<T(!new)>(less: (T, T) -> bool, s: seq<T>) {
    forall i, j :: 0 <= i < j < |s| ==> less(s[i], s[j])
  }

  /** `sorted(...)` of a set: repeatedly take the least element left. */
  method SortedElements<T(==, !new)>(less: (T, T) -> bool, elements: set<T>) returns (s: seq<T>)
    requires StrictTotal(less)
    ensures Ascending(less, s)
    ensures forall x :: x in s <==> x in elements
    ensures |s| == |elements|
  {
    s := [];
    var left := elements;
    while left != {}
      invariant left <= elements
      invariant Ascending(less, s)
      invariant forall x :: x in s <==> x in elements - left
      invariant forall i, y :: 0 <= i < |s| && y in left ==> less(s[i], y)
      invariant |s| + |left| == |elements|
      decreases left
    {
      var least := Least(less, left);
      s, left := s + [least], left - {least};
    }
  }

  method Least<T(==, !new)>(less: (T, T) -> bool, elements: set<T>) returns (least: T)
    requires StrictTotal(less) && elements != {}
    ensures least in elements && forall y :: y in elements && y != least ==> less(least, y)
  {
    least :| least in elements;
    var left := elements - {least};
    while left != {}
      invariant left <= elements && least in elements && least !in left
      invariant forall y :: y in elements - left && y != least ==> less(least, y)
      decreases left
    {
      var y :| y in left;
      left := left - {y};
      if less(y, least) {
        forall z | z in elements - left && z != y ensures less(y, z) {
          assert z == least || less(least, z);
        }
        least := y;
      }
    }
  }
}
