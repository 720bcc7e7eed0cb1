/** Directed graphs of module names, walks, simple cycles and rotations. */
module Graphs {
  import opened Orders

  type Graph = map<string, set<string>>

  predicate Edge(g: Graph, u: string, v: string) {
    u in g && v in g[u]
  }

  ghost predicate Walk(g: Graph, w: seq<string>) {
    |w| >= 1 && forall i :: 0 <= i < |w| - 1 ==> Edge(g, w[i], w[i + 1])
  }

  ghost predicate ClosedWalk(g: Graph, w: seq<string>) {
    |w| >= 2 && Walk(g, w) && w[0] == w[|w| - 1]
  }

  ghost predicate Cyclic(g: Graph) {
    exists w :: ClosedWalk(g, w)
  }

  ghost predicate Reaches(g: Graph, u: string, v: string) {
    exists w :: Walk(g, w) && w[0] == u && w[|w| - 1] == v
  }

  ghost predicate Distinct<T>(s: seq<T>) {
    forall i, j :: 0 <= i < j < |s| ==> s[i] != s[j]
  }

  /** A closed walk that repeats no node but its end. */
  ghost predicate SimpleCycle(g: Graph, c: seq<string>) {
    ClosedWalk(g, c) && Distinct(c[..|c| - 1])
  }

  ghost predicate OnWalk(w: seq<string>, u: string, v: string) {
    exists i :: 0 <= i < |w| - 1 && w[i] == u && w[i + 1] == v
  }

  // ----- rotations -----

  function Rotation<T>(core: seq<T>, i: nat): (r: seq<T>)
    requires i <= |core|
  {
    core[i..] + core[..i]
  }

  function Close<T>(core: seq<T>): seq<T>
    requires core != []
  {
    core + [core[0]]
  }

  /** The least of the first `n` rotations. */
  function LeastRotation(core: seq<string>, n: nat): (r: seq<string>)
    requires 1 <= n <= |core|
    ensures exists i :: 0 <= i < |core| && r == Rotation(core, i)
  {
    if n == 1 then Rotation(core, 0)
    else
      var best := LeastRotation(core, n - 1);
      if TUPLE_LESS(Rotation(core, n - 1), best) then Rotation(core, n - 1) else best
  }

  function Canonical(core: seq<string>): seq<string>
    requires core != []
  {
    LeastRotation(core, |core|)
  }

  lemma {:induction false} LeastRotationIsLeast(core: seq<string>, n: nat)
    requires 1 <= n <= |core|
    ensures forall i :: 0 <= i < n ==> !TUPLE_LESS(Rotation(core, i), LeastRotation(core, n))
  {
    TupleOrder();
    if n > 1 {
      LeastRotationIsLeast(core, n - 1);
    }
  }

  lemma RotationOfRotation<T>(core: seq<T>, i: nat, j: nat)
    requires i < |core| && j < |core|
    ensures var k := if i + j < |core| then i + j else i + j - |core|;
      Rotation(Rotation(core, i), j) == Rotation(core, k)
  {
    var r := Rotation(core, i);
    if i + j < |core| {
      assert r[j..] == core[i + j..] + core[..i] && r[..j] == core[i..i + j];
      assert core[..i + j] == core[..i] + core[i..i + j];
    } else {
      var k := i + j - |core|;
      assert r[j..] == core[k..i] && r[..j] == core[i..] + core[..k];
      assert core[k..] == core[k..i] + core[i..];
    }
  }

  lemma CanonicalIsRotation(core: seq<string>) returns (i: nat)
    requires core != []
    ensures i < |core| && Canonical(core) == Rotation(core, i)
  {
    hide LeastRotation, Rotation;
    i :| i < |core| && Canonical(core) == Rotation(core, i);
  }

  lemma CanonicalIsLeast(core: seq<string>, i: nat)
    requires i < |core|
    ensures !TUPLE_LESS(Rotation(core, i), Canonical(core))
  {
    hide LeastRotation, Rotation;
    LeastRotationIsLeast(core, |core|);
  }

  lemma NeitherIsLess(a: seq<string>, b: seq<string>)
    requires !TUPLE_LESS(a, b) && !TUPLE_LESS(b, a)
    ensures a == b
  {
    TupleOrder();
  }

  /** Two cores that are rotations of one another have the same canonical form. */
  lemma CanonicalIgnoresRotation(core: seq<string>, i: nat)
    requires i < |core|
    ensures Canonical(Rotation(core, i)) == Canonical(core)
  {
    var other := Rotation(core, i);
    RotationsMatch(core, i, other);
  }

  lemma RotationsMatch(core: seq<string>, i: nat, other: seq<string>)
    requires i < |core| == |other| && other == Rotation(core, i)
    ensures Canonical(other) == Canonical(core)
  {
    hide Canonical, Rotation;
    var j := CanonicalIsRotation(core);
    var k := CanonicalIsRotation(other);
    var j' := if j >= i then j - i else j - i + |core|;
    RotationOfRotation(core, i, j');
    RotationOfRotation(core, i, k);
    CanonicalIsLeast(other, j');
    CanonicalIsLeast(core, if i + k < |core| then i + k else i + k - |core|);
    NeitherIsLess(Canonical(core), Canonical(other));
  }

  /** Rotating a closed walk keeps it closed, keeps its steps, and keeps it simple. */
  lemma RotatedCycle(g: Graph, core: seq<string>, i: nat)
    requires i < |core| && SimpleCycle(g, Close(core))
    ensures SimpleCycle(g, Close(Rotation(core, i)))
    ensures forall u, v :: OnWalk(Close(core), u, v) ==> OnWalk(Close(Rotation(core, i)), u, v)
  {
    var r := Rotation(core, i);
    var n := |core|;
    assert Close(core)[..n] == core && Close(r)[..n] == r;
    forall j | 0 <= j < n ensures Edge(g, Close(r)[j], Close(r)[j + 1]) {
      var k := if i + j < n then i + j else i + j - n;
      SameStep(core, i, j, k);
      assert Edge(g, Close(core)[k], Close(core)[k + 1]);
    }
    forall u, v | OnWalk(Close(core), u, v) ensures OnWalk(Close(r), u, v) {
      var k :| 0 <= k < n && Close(core)[k] == u && Close(core)[k + 1] == v;
      var j := if k >= i then k - i else k - i + n;
      SameStep(core, i, j, k);
    }
  }

  /** Step `j` of the rotated cycle is step `k` of the cycle. */
  lemma SameStep(core: seq<string>, i: nat, j: nat, k: nat)
    requires i < |core| && j < |core| && k < |core| && (k == i + j || k == i + j - |core|)
    ensures var r := Rotation(core, i);
      |r| == |core| && Close(r)[j] == Close(core)[k] && Close(r)[j + 1] == Close(core)[k + 1]
  {
    var r := Rotation(core, i);
    assert r[j] == core[k];
    if j + 1 < |core| {
      assert r[j + 1] == core[if k + 1 < |core| then k + 1 else 0];
    } else {
      assert r[0] == core[i];
    }
  }

  // ----- walks compose -----

  lemma WalkSlice(g: Graph, w: seq<string>, i: nat, j: nat)
    requires Walk(g, w) && i <= j < |w|
    ensures Reaches(g, w[i], w[j])
  {
    var s := w[i..j + 1];
    assert forall k :: 0 <= k < |s| ==> s[k] == w[i + k];
    assert Walk(g, s) && s[0] == w[i] && s[|s| - 1] == w[j];
  }

  lemma ReachesTransitive(g: Graph, u: string, v: string, x: string)
    requires Reaches(g, u, v) && Reaches(g, v, x)
    ensures Reaches(g, u, x)
  {
    var w1 :| Walk(g, w1) && w1[0] == u && w1[|w1| - 1] == v;
    var w2 :| Walk(g, w2) && w2[0] == v && w2[|w2| - 1] == x;
    var w := w1 + w2[1..];
    forall k | 0 <= k < |w| - 1 ensures Edge(g, w[k], w[k + 1]) {
      if k < |w1| - 1 {
        assert Edge(g, w1[k], w1[k + 1]);
      } else {
        assert Edge(g, w2[k - |w1| + 1], w2[k - |w1| + 2]);
      }
    }
    assert Walk(g, w) && w[0] == u && w[|w| - 1] == x;
  }

  /** Any two nodes of a closed walk reach one another. */
  lemma ClosedWalkConnects(g: Graph, w: seq<string>, i: nat, j: nat)
    requires ClosedWalk(g, w) && i < |w| && j < |w|
    ensures Reaches(g, w[i], w[j])
  {
    WalkSlice(g, w, i, |w| - 1);
    WalkSlice(g, w, 0, j);
    ReachesTransitive(g, w[i], w[0], w[j]);
  }

  /** Closed walks are made of steps only, so graphs with the same edges have the same closed walks. */
  lemma SameEdgesSameCycles(g1: Graph, g2: Graph)
    requires forall u, v :: Edge(g1, u, v) <==> Edge(g2, u, v)
    ensures Cyclic(g1) <==> Cyclic(g2)
  {
    if w :| ClosedWalk(g1, w) {
      assert ClosedWalk(g2, w);
    }
    if w :| ClosedWalk(g2, w) {
      assert ClosedWalk(g1, w);
    }
  }
}
