/** The two cycle checks of the architecture tooling: a depth-first search that reports cycles, and an
    independent detector that only follows paths. */
module Cycles {
  import opened Orders
  import opened Graphs

  function Range<T(==)>(s: seq<T>): set<T> {
    set x | x in s
  }

  // ----- what the search has found out -----

  ghost predicate StepReported(found: set<seq<string>>, u: string, v: string) {
    exists c :: c in found && OnWalk(c, u, v)
  }

  /** A reported cycle is simple, closed, and starts at its least rotation. */
  ghost predicate Reportable(g: Graph, c: seq<string>) {
    && |c| >= 2 && SimpleCycle(g, c)
    && c == Close(c[..|c| - 1]) && c[..|c| - 1] == Canonical(c[..|c| - 1])
  }

  /** The step from `u` to `v` cannot be forgotten: `v` finished before position `n`, or a report runs along it. */
  ghost predicate StepHandled(finished: seq<string>, n: nat, found: set<seq<string>>, u: string, v: string)
    requires n <= |finished|
  {
    v in finished[..n] || StepReported(found, u, v)
  }

  ghost predicate NodeHandled(g: Graph, finished: seq<string>, i: nat, found: set<seq<string>>)
    requires i < |finished|
  {
    forall v :: Edge(g, finished[i], v) && v in g ==> StepHandled(finished, i, found, finished[i], v)
  }

  ghost predicate AllHandled(g: Graph, finished: seq<string>, found: set<seq<string>>) {
    forall i :: 0 <= i < |finished| ==> NodeHandled(g, finished, i, found)
  }

  lemma MoreFoundStillHandled(g: Graph, finished: seq<string>, found: set<seq<string>>, more: set<seq<string>>)
    requires AllHandled(g, finished, found) && found <= more
    ensures AllHandled(g, finished, more)
  {
    forall i | 0 <= i < |finished| ensures NodeHandled(g, finished, i, more) {
      assert NodeHandled(g, finished, i, found);
      forall v | Edge(g, finished[i], v) && v in g ensures StepHandled(finished, i, more, finished[i], v) {
        assert StepHandled(finished, i, found, finished[i], v);
      }
    }
  }

  lemma FinishHandled(g: Graph, finished: seq<string>, found: set<seq<string>>, node: string)
    requires AllHandled(g, finished, found)
    requires forall v :: Edge(g, node, v) && v in g ==> StepHandled(finished, |finished|, found, node, v)
    ensures AllHandled(g, finished + [node], found)
  {
    var longer := finished + [node];
    forall i | 0 <= i < |longer| ensures NodeHandled(g, longer, i, found) {
      assert longer[..i] == finished[..i];
      if i < |finished| {
        assert NodeHandled(g, finished, i, found);
        forall v | Edge(g, longer[i], v) && v in g ensures StepHandled(longer, i, found, longer[i], v) {
          assert StepHandled(finished, i, found, finished[i], v);
        }
      } else {
        forall v | Edge(g, longer[i], v) && v in g ensures StepHandled(longer, i, found, longer[i], v) {
          assert StepHandled(finished, |finished|, found, node, v);
        }
      }
    }
  }

  /** Distinct nodes, each with a step to the next. */
  ghost predicate Path(g: Graph, p: seq<string>) {
    Distinct(p) && forall i :: 0 <= i < |p| - 1 ==> Edge(g, p[i], p[i + 1])
  }

  lemma RangeGrows(g: Graph, p: seq<string>, node: string)
    requires node in g && node !in p
    ensures Range(p + [node]) == Range(p) + {node}
    ensures |g.Keys - Range(p + [node])| < |g.Keys - Range(p)|
  {
    assert Range(p + [node]) == Range(p) + {node};
    assert g.Keys - Range(p + [node]) == (g.Keys - Range(p)) - {node};
  }

  lemma PathGrows(g: Graph, p: seq<string>, node: string)
    requires Path(g, p) && node !in p && (p != [] ==> Edge(g, p[|p| - 1], node))
    ensures Path(g, p + [node])
  {
    var longer := p + [node];
    forall i | 0 <= i < |longer| - 1 ensures Edge(g, longer[i], longer[i + 1]) {
      assert i < |p| - 1 ==> Edge(g, p[i], p[i + 1]);
    }
  }

  /** What holds of the search at every moment. */
  ghost predicate SearchOk(g: Graph, visiting: seq<string>, finished: seq<string>, found: set<seq<string>>) {
    && Path(g, visiting) && Range(visiting) <= g.Keys
    && Range(finished) <= g.Keys && Range(finished) !! Range(visiting)
    && (forall c :: c in found ==> Reportable(g, c))
    && AllHandled(g, finished, found)
  }

  lemma Push(g: Graph, visiting: seq<string>, finished: seq<string>, found: set<seq<string>>, node: string)
    requires SearchOk(g, visiting, finished, found)
    requires node in g && node !in visiting && node !in finished
    requires visiting != [] ==> Edge(g, visiting[|visiting| - 1], node)
    ensures SearchOk(g, visiting + [node], finished, found)
    ensures |g.Keys - Range(visiting + [node])| < |g.Keys - Range(visiting)|
  {
    RangeGrows(g, visiting, node);
    PathGrows(g, visiting, node);
  }

  lemma Pop(g: Graph, visiting: seq<string>, finished: seq<string>, found: set<seq<string>>, node: string)
    requires SearchOk(g, visiting + [node], finished, found)
    requires forall v :: Edge(g, node, v) && v in g ==> StepHandled(finished, |finished|, found, node, v)
    ensures SearchOk(g, visiting, finished + [node], found)
    ensures Range(finished + [node]) == Range(finished) + {node}
  {
    var stack := visiting + [node];
    assert forall i :: 0 <= i < |visiting| ==> visiting[i] == stack[i];
    assert node == stack[|visiting|] && node in Range(stack);
    assert Range(stack) == Range(visiting) + {node};
    FinishHandled(g, finished, found, node);
  }

  lemma SearchMoved(finished: seq<string>, found: set<seq<string>>, finished': seq<string>, found': set<seq<string>>,
                    u: string, v: string)
    requires finished <= finished' && found <= found' && StepHandled(finished, |finished|, found, u, v)
    ensures StepHandled(finished', |finished'|, found', u, v)
  {
  }

  lemma StackCycle(g: Graph, visiting: seq<string>, node: string)
    requires Path(g, visiting) && node in visiting && Edge(g, visiting[|visiting| - 1], node)
    ensures var core := visiting[IndexOf(visiting, node)..];
      SimpleCycle(g, Close(core)) && OnWalk(Close(core), visiting[|visiting| - 1], node)
  {
    var p := IndexOf(visiting, node);
    var core := visiting[p..];
    assert Close(core)[..|core|] == core;
    forall i | 0 <= i < |core| ensures Edge(g, Close(core)[i], Close(core)[i + 1]) {
      assert i + 1 < |core| ==> Edge(g, visiting[p + i], visiting[p + i + 1]);
    }
    assert Close(core)[|core| - 1] == visiting[|visiting| - 1] && Close(core)[|core|] == node;
  }

  lemma CanonicalCycle(g: Graph, core: seq<string>)
    requires core != [] && SimpleCycle(g, Close(core))
    ensures var c := Close(Canonical(core));
      Reportable(g, c) && forall u, v :: OnWalk(Close(core), u, v) ==> OnWalk(c, u, v)
  {
    var i :| 0 <= i < |core| && Canonical(core) == Rotation(core, i);
    RotatedCycle(g, core, i);
    CanonicalIgnoresRotation(core, i);
    assert Close(Canonical(core))[..|core|] == Canonical(core);
  }

  /** The depth-first search with its stack, its finished nodes and its findings. */
  class CycleFinder {
    const graph: Graph
    var visiting: seq<string>
    var visited: set<string>
    var found: set<seq<string>>
    ghost var finished: seq<string>

    ghost predicate Valid()
      reads this
    {
      visited == Range(finished) && SearchOk(graph, visiting, finished, found)
    }

    constructor (graph: Graph)
      ensures Valid() && this.graph == graph && visiting == [] && visited == {} && found == {}
    {
      this.graph := graph;
      visiting, visited, found, finished := [], {}, {}, [];
    }

    /** The stack from `node` on, closed, in canonical rotation. */
    method Report(node: string)
      requires Valid() && node in visiting && Edge(graph, visiting[|visiting| - 1], node)
      modifies this`found
      ensures Valid() && StepReported(found, visiting[|visiting| - 1], node)
      ensures found == old(found) + {Close(Canonical(visiting[IndexOf(visiting, node)..]))}
    {
      hide Canonical, OnWalk, Path;
      var core := visiting[IndexOf(visiting, node)..];
      StackCycle(graph, visiting, node);
      CanonicalCycle(graph, core);
      found := found + {Close(Canonical(core))};
      MoreFoundStillHandled(graph, finished, old(found), found);
    }

    /** Visits `node`; afterwards it is finished, or the step that led to it lies on a reported cycle. */
    method Walk(node: string)
      requires Valid() && node in graph
      requires visiting != [] ==> Edge(graph, visiting[|visiting| - 1], node)
      modifies this`visiting, this`visited, this`found, this`finished
      ensures Valid() && visiting == old(visiting)
      ensures old(finished) <= finished && old(found) <= found
      ensures node in finished
              || (visiting != [] && StepReported(found, visiting[|visiting| - 1], node))
      decreases |graph.Keys - Range(visiting)|, 1
    {
      if node in visiting {
        Report(node);
        return;
      }
      if node in visited {
        return;
      }
      Descend(node);
    }

    method Descend(node: string)
      requires Valid() && node in graph && node !in visiting && node !in visited
      requires visiting != [] ==> Edge(graph, visiting[|visiting| - 1], node)
      modifies this`visiting, this`visited, this`found, this`finished
      ensures Valid() && visiting == old(visiting)
      ensures old(finished) <= finished && old(found) <= found && node in finished
      decreases |graph.Keys - Range(visiting)|, 0
    {
      hide SearchOk, StepHandled, Edge;
      Push(graph, visiting, finished, found, node);
      visiting := visiting + [node];
      VisitChildren(node);
      Finish(node, old(visiting));
    }

    /** `visiting.pop()` and `visited.add(node)`. */
    method Finish(node: string, ghost stack: seq<string>)
      requires Valid() && visiting == stack + [node]
      requires forall v :: Edge(graph, node, v) && v in graph ==> StepHandled(finished, |finished|, found, node, v)
      modifies this`visiting, this`visited, this`finished
      ensures Valid() && visiting == stack && finished == old(finished) + [node]
    {
      Pop(graph, stack, finished, found, node);
      visiting := visiting[..|visiting| - 1];
      visited, finished := visited + {node}, finished + [node];
    }

    /** The loop over the sorted children of the node on top of the stack. */
    method VisitChildren(node: string)
      requires Valid() && node in graph && visiting != [] && visiting[|visiting| - 1] == node
      modifies this`visiting, this`visited, this`found, this`finished
      ensures Valid() && visiting == old(visiting)
      ensures old(finished) <= finished && old(found) <= found
      ensures forall v :: Edge(graph, node, v) && v in graph ==> StepHandled(finished, |finished|, found, node, v)
      decreases |graph.Keys - Range(visiting)|, 2
    {
      hide CycleFinder.Valid, SearchOk, Ascending, StrictTotal;
      StringOrder();
      var children := SortedElements(STRING_LESS, graph[node]);
      var k := 0;
      while k < |children|
        invariant 0 <= k <= |children|
        invariant Valid() && visiting == old(visiting)
        invariant old(finished) <= finished && old(found) <= found
        invariant forall j :: 0 <= j < k && children[j] in graph ==>
                    StepHandled(finished, |finished|, found, node, children[j])
      {
        var child := children[k];
        if child in graph {
          ghost var before, foundBefore := finished, found;
          Walk(child);
          forall j | 0 <= j < k && children[j] in graph
            ensures StepHandled(finished, |finished|, found, node, children[j])
          {
            SearchMoved(before, foundBefore, finished, found, node, children[j]);
          }
        }
        k := k + 1;
      }
    }
  }

  // ----- the report -----

  /** Some step of the closed walk lies on a reported cycle. */
  ghost predicate Hit(found: set<seq<string>>, w: seq<string>) {
    exists i :: 0 <= i < |w| - 1 && StepReported(found, w[i], w[i + 1])
  }

  /** The step of a closed walk out of the node that finished first. */
  lemma {:induction false} FirstFinished(finished: seq<string>, w: seq<string>, n: nat) returns (i: nat)
    requires 1 <= n <= |w| && forall k :: 0 <= k < |w| ==> w[k] in finished
    ensures i < n && forall k :: 0 <= k < n ==> IndexOf(finished, w[i]) <= IndexOf(finished, w[k])
  {
    if n == 1 {
      i := 0;
    } else {
      i := FirstFinished(finished, w, n - 1);
      if IndexOf(finished, w[n - 1]) < IndexOf(finished, w[i]) {
        i := n - 1;
      }
    }
  }

  lemma {:induction false} IndexOfIsFirst(s: seq<string>, x: string, n: nat)
    requires n <= |s| && x in s[..n]
    ensures x in s && IndexOf(s, x) < n
  {
    if s[0] != x {
      assert s[..n][1..] == s[1..][..n - 1];
      IndexOfIsFirst(s[1..], x, n - 1);
    }
  }

  lemma EveryClosedWalkIsHit(g: Graph, finished: seq<string>, found: set<seq<string>>, w: seq<string>)
    requires AllHandled(g, finished, found) && g.Keys <= Range(finished)
    requires ClosedWalk(g, w)
    ensures Hit(found, w)
  {
    forall k | 0 <= k < |w| ensures w[k] in finished && w[k] in g {
      assert k < |w| - 1 ==> Edge(g, w[k], w[k + 1]);
      assert Edge(g, w[0], w[1]);
      assert w[k] in Range(finished);
    }
    var i := FirstFinished(finished, w, |w| - 1);
    assert Edge(g, w[i], w[i + 1]);
    var n := IndexOf(finished, w[i]);
    assert NodeHandled(g, finished, n, found) && StepHandled(finished, n, found, w[i], w[i + 1]);
    assert w[i + 1] == w[if i + 1 < |w| - 1 then i + 1 else 0];
    if w[i + 1] in finished[..n] {
      IndexOfIsFirst(finished, w[i + 1], n);
    }
  }

  lemma AllClosedWalksAreHit(g: Graph, finished: seq<string>, found: set<seq<string>>)
    requires AllHandled(g, finished, found) && forall node :: node in g.Keys ==> node in finished
    ensures forall w :: ClosedWalk(g, w) ==> Hit(found, w)
  {
    forall w | ClosedWalk(g, w) ensures Hit(found, w) {
      EveryClosedWalkIsHit(g, finished, found, w);
    }
  }

  /** The cycles in ascending order, only simple cycles of the graph, and one on every closed walk. */
  ghost predicate CycleReport(g: Graph, cycles: seq<seq<string>>) {
    && Ascending(TUPLE_LESS, cycles)
    && (forall c :: c in cycles ==> Reportable(g, c))
    && (forall w :: ClosedWalk(g, w) ==> Hit(Range(cycles), w))
  }

  /** The reported cycles, element by element: each comes before the next, and no rotation of it comes before itself. */
  ghost predicate InCanonicalOrder(cycles: seq<seq<string>>) {
    && (forall i, j :: 0 <= i < j < |cycles| ==> TupleBefore(cycles[i], cycles[j]))
    && (forall i :: 0 <= i < |cycles| ==> |cycles[i]| >= 2 && IsLeastRotation(cycles[i][..|cycles[i]| - 1]))
  }

  ghost predicate IsLeastRotation(core: seq<string>) {
    forall r :: 0 <= r < |core| ==> !TupleBefore(core[r..] + core[..r], core)
  }

  lemma ReportsInOrder(g: Graph, cycles: seq<seq<string>>)
    requires CycleReport(g, cycles)
    ensures InCanonicalOrder(cycles)
  {
    forall i, j | 0 <= i < j < |cycles| ensures TupleBefore(cycles[i], cycles[j]) {
      TupleOrderIsLexical(cycles[i], cycles[j]);
    }
    forall i | 0 <= i < |cycles| ensures |cycles[i]| >= 2 && IsLeastRotation(cycles[i][..|cycles[i]| - 1]) {
      assert Reportable(g, cycles[i]);
      CanonicalRotationIsLeast(cycles[i][..|cycles[i]| - 1]);
    }
  }

  lemma CanonicalRotationIsLeast(core: seq<string>)
    requires core != [] && core == Canonical(core)
    ensures IsLeastRotation(core)
  {
    hide Canonical;
    forall r | 0 <= r < |core| ensures !TupleBefore(core[r..] + core[..r], core) {
      CanonicalIsLeast(core, r);
      TupleOrderIsLexical(Rotation(core, r), core);
    }
  }

  /** `_cycles` */
  method FindCycles(graph: Graph) returns (cycles: seq<seq<string>>)
    ensures CycleReport(graph, cycles) && InCanonicalOrder(cycles)
  {
    hide Hit, Reportable, NodeHandled, Path, ClosedWalk, Ascending;
    var finder := new CycleFinder(graph);
    WalkAll(finder, graph);
    AllClosedWalksAreHit(graph, finder.finished, finder.found);
    TupleOrder();
    cycles := SortedElements(TUPLE_LESS, finder.found);
    assert Range(cycles) == finder.found;
    ReportsInOrder(graph, cycles);
  }

  /** `for module in sorted(graph): walk(module)` */
  method WalkAll(finder: CycleFinder, graph: Graph)
    requires finder.Valid() && finder.graph == graph && finder.visiting == []
    modifies finder
    ensures finder.Valid() && finder.graph == graph && finder.visiting == []
    ensures forall node :: node in graph.Keys ==> node in finder.finished
  {
    hide CycleFinder.Valid, SearchOk, Ascending, StrictTotal;
    StringOrder();
    var modules := SortedElements(STRING_LESS, graph.Keys);
    var k := 0;
    while k < |modules|
      invariant 0 <= k <= |modules|
      invariant finder.Valid() && finder.graph == graph && finder.visiting == []
      invariant forall j :: 0 <= j < k ==> modules[j] in finder.finished
    {
      finder.Walk(modules[k]);
      k := k + 1;
    }
    forall node | node in graph.Keys ensures node in finder.finished {
      assert node in modules;
    }
  }

  /** Something is reported exactly when the graph is cyclic. */
  lemma ReportsIffCyclic(g: Graph, cycles: seq<seq<string>>)
    requires CycleReport(g, cycles)
    ensures cycles != [] <==> Cyclic(g)
  {
    if cycles != [] {
      assert cycles[0] in cycles;
      assert ClosedWalk(g, cycles[0]);
    }
    if w :| ClosedWalk(g, w) {
      assert Hit(Range(cycles), w);
    }
  }

  /** Every node that lies on a cycle shares its strongly connected component with all of a reported cycle. */
  lemma EveryCyclicComponentIsReported(g: Graph, cycles: seq<seq<string>>, w: seq<string>) returns (c: seq<string>)
    requires CycleReport(g, cycles) && ClosedWalk(g, w)
    ensures c in cycles
    ensures forall i, j :: 0 <= i < |w| && 0 <= j < |c| ==> Reaches(g, w[i], c[j]) && Reaches(g, c[j], w[i])
  {
    assert Hit(Range(cycles), w);
    var p :| 0 <= p < |w| - 1 && StepReported(Range(cycles), w[p], w[p + 1]);
    c :| c in Range(cycles) && OnWalk(c, w[p], w[p + 1]);
    assert c in cycles && Reportable(g, c);
    var q :| 0 <= q < |c| - 1 && c[q] == w[p] && c[q + 1] == w[p + 1];
    forall i, j | 0 <= i < |w| && 0 <= j < |c| ensures Reaches(g, w[i], c[j]) && Reaches(g, c[j], w[i]) {
      ClosedWalkConnects(g, w, i, p);
      ClosedWalkConnects(g, c, q, j);
      ReachesTransitive(g, w[i], w[p], c[j]);
      ClosedWalkConnects(g, c, j, q);
      ClosedWalkConnects(g, w, p, i);
      ReachesTransitive(g, c[j], w[p], w[i]);
    }
  }

  /** No cycle is reported under two rotations. */
  lemma NoCycleTwice(g: Graph, cycles: seq<seq<string>>, i: nat, j: nat, r: nat)
    requires CycleReport(g, cycles) && i < |cycles| && j < |cycles|
    requires |cycles[i]| >= 2 && |cycles[j]| >= 2 && r < |cycles[i]| - 1
    requires cycles[j][..|cycles[j]| - 1] == Rotation(cycles[i][..|cycles[i]| - 1], r)
    ensures i == j
  {
    assert cycles[i] in cycles && cycles[j] in cycles;
    CanonicalIgnoresRotation(cycles[i][..|cycles[i]| - 1], r);
    assert cycles[i] == cycles[j];
    TupleOrder();
  }

  // ----- the path-based detector -----

  /** Follow every path; a repeated node on the path is a cycle. */
  predicate Visit(g: Graph, node: string, active: set<string>)
    decreases |g.Keys - active|
  {
    node in active
    || (node in g && exists child :: child in g[node] && VisitChild(g, node, active, child))
  }

  predicate VisitChild(g: Graph, node: string, active: set<string>, child: string)
    requires node in g && node !in active
    decreases |g.Keys - active|, 0
  {
    assert g.Keys - (active + {node}) == (g.Keys - active) - {node};
    Visit(g, child, active + {node})
  }

  /** A visit that succeeds has walked into a cycle. */
  lemma {:induction false} VisitFindsCycle(g: Graph, path: seq<string>, node: string)
    requires Visit(g, node, Range(path))
    requires Path(g, path) && (path != [] ==> Edge(g, path[|path| - 1], node))
    ensures Cyclic(g)
    decreases |g.Keys - Range(path)|
  {
    if node in path {
      StackCycle(g, path, node);
      assert ClosedWalk(g, Close(path[IndexOf(path, node)..]));
    } else {
      var child :| child in g[node] && VisitChild(g, node, Range(path), child);
      RangeGrows(g, path, node);
      PathGrows(g, path, node);
      VisitFindsCycle(g, path + [node], child);
    }
  }

  /** A visit from a node of a closed walk succeeds whatever is already on the path. */
  lemma {:induction false} VisitSucceedsOnCycle(g: Graph, w: seq<string>, i: nat, active: set<string>)
    requires ClosedWalk(g, w) && i < |w| - 1
    ensures Visit(g, w[i], active)
    decreases |g.Keys - active|
  {
    if w[i] !in active {
      assert Edge(g, w[i], w[i + 1]);
      assert g.Keys - (active + {w[i]}) == (g.Keys - active) - {w[i]};
      VisitSucceedsOnCycle(g, w, if i + 1 < |w| - 1 then i + 1 else 0, active + {w[i]});
      assert VisitChild(g, w[i], active, w[i + 1]);
    }
  }

  /** `_contains_cycle`: build the adjacency sets, then visit from every source. */
  method ContainsCycle(edges: seq<(string, string)>) returns (found: bool)
    ensures forall g: Graph :: (forall u, v :: Edge(g, u, v) <==> (u, v) in edges) ==> (found <==> Cyclic(g))
  {
    var graph: Graph := map[];
    var i := 0;
    while i < |edges|
      invariant 0 <= i <= |edges|
      invariant forall u, v :: Edge(graph, u, v) <==> (u, v) in edges[..i]
    {
      var (source, target) := edges[i];
      graph := graph[source := (if source in graph then graph[source] else {}) + {target}];
      i := i + 1;
    }
    found := exists node :: node in graph && Visit(graph, node, {});
    DetectorIsExact(graph);
    forall g: Graph | forall u, v :: Edge(g, u, v) <==> (u, v) in edges ensures found <==> Cyclic(g) {
      SameEdgesSameCycles(g, graph);
    }
  }

  lemma DetectorIsExact(g: Graph)
    ensures (exists node :: node in g && Visit(g, node, {})) <==> Cyclic(g)
  {
    if node :| node in g && Visit(g, node, {}) {
      assert Range<string>([]) == {};
      VisitFindsCycle(g, [], node);
    }
    if w :| ClosedWalk(g, w) {
      assert Edge(g, w[0], w[1]);
      VisitSucceedsOnCycle(g, w, 0, {});
    }
  }

  /** Run on the edges of one graph, the two checks agree. */
  method ChecksAgree(graph: Graph, edges: seq<(string, string)>) returns (cycles: seq<seq<string>>, found: bool)
    requires forall u, v :: Edge(graph, u, v) <==> (u, v) in edges
    ensures found <==> cycles != []
  {
    cycles := FindCycles(graph);
    found := ContainsCycle(edges);
    ReportsIffCyclic(graph, cycles);
  }
}
