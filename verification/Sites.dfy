/** Counting mutation sites of a syntax tree: per function by a recursive visitor, and in all breadth first. */
module Sites {
  import opened Orders

  datatype Kind =
    | FunctionDef
    | ClassDef
    | Mutable                        // Compare, BoolOp, BinOp, UnaryOp, If, IfExp, While
    | Constant(noneOrEllipsis: bool)
    | Other

  datatype Tree = Tree(kind: Kind, name: string, children: seq<Tree>)

  predicate IsSite(t: Tree) {
    t.kind == Mutable || t.kind == Constant(false)
  }

  /** A dictionary of counts, in insertion order. */
  datatype Bucket = Bucket(name: string, count: nat)

  const MODULE_BUCKET: string := "<module>"

  predicate Has(counts: seq<Bucket>, name: string) {
    exists i :: 0 <= i < |counts| && counts[i].name == name
  }

  ghost predicate NamesDistinct(counts: seq<Bucket>) {
    forall i, j :: 0 <= i < j < |counts| ==> counts[i].name != counts[j].name
  }

  /** `counts.get(name, 0)` */
  function CountOf(counts: seq<Bucket>, name: string): nat {
    if counts == [] then 0 else if counts[0].name == name then counts[0].count else CountOf(counts[1..], name)
  }

  function Total(counts: seq<Bucket>): nat {
    if counts == [] then 0 else counts[0].count + Total(counts[1..])
  }

  function Join(parts: seq<string>): string {
    if parts == [] then "" else if |parts| == 1 then parts[0] else parts[0] + "." + Join(parts[1..])
  }

  /** Two lists of parts are joined by one dot between them. */
  lemma {:induction false} JoinConcat(a: seq<string>, b: seq<string>)
    requires a != [] && b != []
    ensures Join(a + b) == Join(a) + "." + Join(b)
  {
    if |a| == 1 {
      assert (a + b)[1..] == b;
    } else {
      JoinConcat(a[1..], b);
      assert (a + b)[1..] == a[1..] + b;
    }
  }

  // ----- the kinds of a tree's nodes -----

  function KindsOf(t: Tree): multiset<Kind>
    decreases t, 1
  {
    multiset{t.kind} + KindsBelow(t.children)
  }

  function KindsBelow(ts: seq<Tree>): multiset<Kind>
    decreases ts, 0
  {
    if ts == [] then multiset{} else KindsOf(ts[0]) + KindsBelow(ts[1..])
  }

  /** The sites are the nodes of the mutable kinds and the constants that are neither None nor an ellipsis. */
  lemma {:induction false} SitesByKind(ts: seq<Tree>)
    ensures SitesBelow(ts) == KindsBelow(ts)[Mutable] + KindsBelow(ts)[Constant(false)]
    decreases ts
  {
    if ts != [] {
      SitesByKind(ts[0].children);
      SitesByKind(ts[1..]);
    }
  }

  // ----- sites, and the function each belongs to -----

  function SitesOf(t: Tree): nat
    decreases t, 1
  {
    (if IsSite(t) then 1 else 0) + SitesBelow(t.children)
  }

  function SitesBelow(ts: seq<Tree>): nat
    decreases ts, 0
  {
    if ts == [] then 0 else SitesOf(ts[0]) + SitesBelow(ts[1..])
  }

  /** For every site in the trees, in source order, the qualified name of the innermost function around it. */
  function Owners(ts: seq<Tree>, prefix: seq<string>, scope: string): seq<string>
    decreases ts, 0
  {
    if ts == [] then [] else OwnersIn(ts[0], prefix, scope) + Owners(ts[1..], prefix, scope)
  }

  function OwnersIn(t: Tree, prefix: seq<string>, scope: string): seq<string>
    decreases t, 1
  {
    var qualified := prefix + [t.name];
    match t.kind
    case FunctionDef => Owners(t.children, qualified, Join(qualified))
    case ClassDef => Owners(t.children, qualified, scope)
    case _ => (if IsSite(t) then [scope] else []) + Owners(t.children, prefix, scope)
  }

  /** The qualified names of the functions in the trees, in source order. */
  function Defined(ts: seq<Tree>, prefix: seq<string>): seq<string>
    decreases ts, 0
  {
    if ts == [] then [] else DefinedIn(ts[0], prefix) + Defined(ts[1..], prefix)
  }

  function DefinedIn(t: Tree, prefix: seq<string>): seq<string>
    decreases t, 1
  {
    match t.kind
    case FunctionDef => [Join(prefix + [t.name])] + Defined(t.children, prefix + [t.name])
    case ClassDef => Defined(t.children, prefix + [t.name])
    case _ => Defined(t.children, prefix)
  }

  lemma {:induction false} DefinedAppend(ts: seq<Tree>, t: Tree, prefix: seq<string>)
    ensures Defined(ts + [t], prefix) == Defined(ts, prefix) + DefinedIn(t, prefix)
    decreases |ts|
  {
    if ts != [] {
      DefinedAppend(ts[1..], t, prefix);
      assert (ts + [t])[1..] == ts[1..] + [t];
    }
  }

  /** Every site has exactly one owner. */
  lemma {:induction false} OwnersCountSites(ts: seq<Tree>, prefix: seq<string>, scope: string)
    ensures |Owners(ts, prefix, scope)| == SitesBelow(ts)
    decreases ts
  {
    if ts != [] {
      var t := ts[0];
      var qualified := prefix + [t.name];
      OwnersCountSites(t.children, qualified, Join(qualified));
      OwnersCountSites(t.children, qualified, scope);
      OwnersCountSites(t.children, prefix, scope);
      OwnersCountSites(ts[1..], prefix, scope);
    }
  }

  lemma {:induction false} OwnersAppend(ts: seq<Tree>, t: Tree, prefix: seq<string>, scope: string)
    ensures Owners(ts + [t], prefix, scope) == Owners(ts, prefix, scope) + OwnersIn(t, prefix, scope)
    decreases |ts|
  {
    if ts != [] {
      OwnersAppend(ts[1..], t, prefix, scope);
      assert (ts + [t])[1..] == ts[1..] + [t];
    }
  }

  // ----- dictionary updates -----

  /** `counts[name] = counts.get(name, 0) + n`, keeping the position of a name already there. */
  function Add(counts: seq<Bucket>, name: string, n: nat): seq<Bucket> {
    if counts == [] then [Bucket(name, n)]
    else if counts[0].name == name then [Bucket(name, counts[0].count + n)] + counts[1..]
    else [counts[0]] + Add(counts[1..], name, n)
  }

  lemma {:induction false} AddCounts(counts: seq<Bucket>, name: string, n: nat, other: string)
    ensures Total(Add(counts, name, n)) == Total(counts) + n
    ensures CountOf(Add(counts, name, n), other) == CountOf(counts, other) + if other == name then n else 0
    ensures Has(Add(counts, name, n), other) <==> other == name || Has(counts, other)
    decreases |counts|
  {
    var added := Add(counts, name, n);
    if counts == [] {
      assert added[0].name == name;
    } else if counts[0].name == name {
      assert added[0].name == name && added[1..] == counts[1..];
      assert forall i :: 0 < i < |counts| ==> added[i] == counts[i];
    } else {
      AddCounts(counts[1..], name, n, other);
      assert added[1..] == Add(counts[1..], name, n);
      HasTail(added, other);
      HasTail(counts, other);
    }
  }

  lemma HasTail(counts: seq<Bucket>, name: string)
    requires counts != []
    ensures Has(counts, name) <==> counts[0].name == name || Has(counts[1..], name)
  {
    if i :| 0 <= i < |counts| && counts[i].name == name {
      assert i > 0 ==> counts[1..][i - 1].name == name;
    }
    if i :| 0 <= i < |counts[1..]| && counts[1..][i].name == name {
      assert counts[i + 1].name == name;
    }
  }

  lemma {:induction false} AddKeepsDistinct(counts: seq<Bucket>, name: string, n: nat)
    requires NamesDistinct(counts)
    ensures NamesDistinct(Add(counts, name, n))
    decreases |counts|
  {
    if counts != [] && counts[0].name != name {
      var rest := Add(counts[1..], name, n);
      AddKeepsDistinct(counts[1..], name, n);
      forall j | 0 <= j < |rest| ensures counts[0].name != rest[j].name {
        AddCounts(counts[1..], name, n, rest[j].name);
        assert Has(rest, rest[j].name);
      }
    }
  }

  function NamesOf(counts: seq<Bucket>): (names: seq<string>)
    ensures |names| == |counts| && forall i :: 0 <= i < |counts| ==> names[i] == counts[i].name
  {
    seq(|counts|, i requires 0 <= i < |counts| => counts[i].name)
  }

  /** A name is entered behind the others, once. */
  function Noted(names: seq<string>, name: string): seq<string> {
    if name in names then names else names + [name]
  }

  function AllNoted(names: seq<string>, more: seq<string>): seq<string>
    decreases |more|
  {
    if more == [] then names else Noted(AllNoted(names, more[..|more| - 1]), more[|more| - 1])
  }

  lemma {:induction false} AllNotedConcat(names: seq<string>, a: seq<string>, b: seq<string>)
    ensures AllNoted(names, a + b) == AllNoted(AllNoted(names, a), b)
    decreases |b|
  {
    if b == [] {
      assert a + b == a;
    } else {
      AllNotedConcat(names, a, b[..|b| - 1]);
      assert (a + b)[..|a + b| - 1] == a + b[..|b| - 1];
    }
  }

  lemma {:induction false} AddNotes(counts: seq<Bucket>, name: string, n: nat)
    ensures NamesOf(Add(counts, name, n)) == Noted(NamesOf(counts), name)
  {
    if counts != [] {
      var rest := NamesOf(counts[1..]);
      assert NamesOf(counts) == [counts[0].name] + rest;
      if counts[0].name == name {
        assert Add(counts, name, n)[1..] == counts[1..] && name == NamesOf(counts)[0];
      } else {
        AddNotes(counts[1..], name, n);
        assert NamesOf(Add(counts, name, n)) == [counts[0].name] + Noted(rest, name);
      }
    }
  }

  /** These are the given names, each once, in the order in which they first come up. */
  ghost predicate FirstsOf(names: seq<string>, all: seq<string>) {
    && (forall x :: x in names <==> x in all)
    && (forall i, j :: 0 <= i < j < |names| ==>
          names[i] in all && names[j] in all && IndexOf(all, names[i]) < IndexOf(all, names[j]))
  }

  lemma {:induction false} NotedAreFirsts(all: seq<string>)
    ensures FirstsOf(AllNoted([], all), all)
  {
    if all != [] {
      var init, last := all[..|all| - 1], all[|all| - 1];
      NotedAreFirsts(init);
      forall x | x in init ensures IndexOf(all, x) == IndexOf(init, x) {
        assert all[IndexOf(init, x)] == x;
      }
    }
  }

  // ----- the visitor -----

  /** `after` is `before` with one more site for each owner listed, and with the names defined behind those it had. */
  ghost predicate Counted(before: seq<Bucket>, after: seq<Bucket>, owners: seq<string>, defined: seq<string>) {
    && NamesDistinct(after) && NamesOf(after) == AllNoted(NamesOf(before), defined)
    && Total(after) == Total(before) + |owners|
    && (forall name :: CountOf(after, name) == CountOf(before, name) + multiset(owners)[name])
    && (forall name :: Has(before, name) ==> Has(after, name))
  }

  lemma CountedTwice(a: seq<Bucket>, b: seq<Bucket>, c: seq<Bucket>, owners: seq<string>, defined: seq<string>,
                     owners2: seq<string>, defined2: seq<string>)
    requires Counted(a, b, owners, defined) && Counted(b, c, owners2, defined2)
    ensures Counted(a, c, owners + owners2, defined + defined2)
  {
    AllNotedConcat(NamesOf(a), defined, defined2);
  }

  lemma AddCounted(counts: seq<Bucket>, name: string, n: nat)
    requires NamesDistinct(counts) && n <= 1 && (n == 1 ==> Has(counts, name))
    ensures Counted(counts, Add(counts, name, n), if n == 1 then [name] else [], if n == 1 then [] else [name])
    ensures NamesDistinct(Add(counts, name, n)) && Has(Add(counts, name, n), name)
  {
    AddKeepsDistinct(counts, name, n);
    AddCounts(counts, name, n, name);
    AddNamed(counts, name, n);
    hide NamesOf, Noted, AllNoted, Add;
    var owners := if n == 1 then [name] else [];
    forall other
      ensures CountOf(Add(counts, name, n), other) == CountOf(counts, other) + multiset(owners)[other]
      ensures Has(counts, other) ==> Has(Add(counts, name, n), other)
    {
      AddCounts(counts, name, n, other);
    }
  }

  lemma NothingCounted(counts: seq<Bucket>)
    requires NamesDistinct(counts)
    ensures Counted(counts, counts, [], [])
  {}

  /** The name is there afterwards, and nothing else has changed among the names. */
  lemma AddNamed(counts: seq<Bucket>, name: string, n: nat)
    ensures NamesOf(Add(counts, name, n)) == AllNoted(NamesOf(counts), [name])
    ensures Has(counts, name) ==> NamesOf(Add(counts, name, n)) == AllNoted(NamesOf(counts), [])
  {
    AddNotes(counts, name, n);
    assert [name][..0] == [];
    if i :| 0 <= i < |counts| && counts[i].name == name {
      assert NamesOf(counts)[i] == name;
    }
  }

  lemma CountedNext(start: seq<Bucket>, before: seq<Bucket>, after: seq<Bucket>, ts: seq<Tree>, i: nat,
                    prefix: seq<string>, scope: string)
    requires i < |ts| && Counted(start, before, Owners(ts[..i], prefix, scope), Defined(ts[..i], prefix))
    requires Counted(before, after, OwnersIn(ts[i], prefix, scope), DefinedIn(ts[i], prefix)) && Has(before, scope)
    ensures Counted(start, after, Owners(ts[..i + 1], prefix, scope), Defined(ts[..i + 1], prefix))
    ensures Has(after, scope)
  {
    assert ts[..i + 1] == ts[..i] + [ts[i]];
    OwnersAppend(ts[..i], ts[i], prefix, scope);
    DefinedAppend(ts[..i], ts[i], prefix);
    CountedTwice(start, before, after, Owners(ts[..i], prefix, scope), Defined(ts[..i], prefix),
                 OwnersIn(ts[i], prefix, scope), DefinedIn(ts[i], prefix));
  }

  class SiteVisitor {
    var counts: seq<Bucket>

    constructor ()
      ensures counts == [Bucket(MODULE_BUCKET, 0)]
    {
      counts := [Bucket(MODULE_BUCKET, 0)];
    }

    /** The loop over a node's children. */
    method Visit(children: seq<Tree>, prefix: seq<string>, scope: string)
      requires NamesDistinct(counts) && Has(counts, scope)
      modifies this
      ensures Counted(old(counts), counts, Owners(children, prefix, scope), Defined(children, prefix))
      decreases children, 0
    {
      ghost var start := counts;
      var i := 0;
      while i < |children|
        invariant 0 <= i <= |children|
        invariant Counted(start, counts, Owners(children[..i], prefix, scope), Defined(children[..i], prefix))
        invariant Has(counts, scope)
      {
        ghost var before := counts;
        VisitChild(children[i], prefix, scope);
        CountedNext(start, before, counts, children, i, prefix, scope);
        i := i + 1;
      }
      assert children[..i] == children;
    }

    method VisitChild(t: Tree, prefix: seq<string>, scope: string)
      requires NamesDistinct(counts) && Has(counts, scope)
      modifies this
      ensures Counted(old(counts), counts, OwnersIn(t, prefix, scope), DefinedIn(t, prefix))
      decreases t, 1
    {
      hide Counted, Join, NamesDistinct;
      var qualified := prefix + [t.name];
      match t.kind {
        case FunctionDef =>
          AddCounted(counts, Join(qualified), 0);
          ghost var start := counts;
          counts := Add(counts, Join(qualified), 0);
          ghost var entered := counts;
          Visit(t.children, qualified, Join(qualified));
          CountedTwice(start, entered, counts, [], [Join(qualified)],
                       Owners(t.children, qualified, Join(qualified)), Defined(t.children, qualified));
          assert [] + OwnersIn(t, prefix, scope) == OwnersIn(t, prefix, scope);
        case ClassDef =>
          Visit(t.children, qualified, scope);
        case _ =>
          ghost var start := counts;
          NothingCounted(counts);
          if IsSite(t) {
            AddCounted(counts, scope, 1);
            counts := Add(counts, scope, 1);
          }
          ghost var credited := counts;
          Visit(t.children, prefix, scope);
          CountedTwice(start, credited, counts, if IsSite(t) then [scope] else [], [],
                       Owners(t.children, prefix, scope), Defined(t.children, prefix));
          assert [] + Defined(t.children, prefix) == Defined(t.children, prefix);
      }
    }
  }

  /** `function_sites`: every site is counted once, under its owner; the module comes first, then the functions in
      source order, those without sites included. */
  method FunctionSites(tree: Tree) returns (counts: seq<Bucket>)
    ensures NamesDistinct(counts)
    ensures FirstsOf(NamesOf(counts), ["<module>"] + Defined(tree.children, []))
    ensures forall name :: CountOf(counts, name) == multiset(Owners(tree.children, [], "<module>"))[name]
    ensures Total(counts) == SitesBelow(tree.children)
         == KindsBelow(tree.children)[Mutable] + KindsBelow(tree.children)[Constant(false)]
  {
    var visitor := new SiteVisitor();
    assert visitor.counts[0].name == MODULE_BUCKET && Total(visitor.counts) == 0;
    visitor.Visit(tree.children, [], MODULE_BUCKET);
    OwnersCountSites(tree.children, [], MODULE_BUCKET);
    counts := visitor.counts;
    SitesByKind(tree.children);
    ModuleFirst(Defined(tree.children, []));
    assert forall name :: CountOf([Bucket(MODULE_BUCKET, 0)], name) == 0;
  }

  lemma ModuleFirst(defined: seq<string>)
    ensures FirstsOf(AllNoted(NamesOf([Bucket(MODULE_BUCKET, 0)]), defined), ["<module>"] + defined)
  {
    var first := ["<module>"];
    AllNotedConcat([], first, defined);
    NotedAreFirsts(first + defined);
    assert first[..0] == [] && NamesOf([Bucket(MODULE_BUCKET, 0)]) == AllNoted([], first);
  }

  // ----- breadth first -----

  function Size(t: Tree): nat
    decreases t, 1
  {
    1 + Sizes(t.children)
  }

  function Sizes(ts: seq<Tree>): nat
    decreases ts, 0
  {
    if ts == [] then 0 else Size(ts[0]) + Sizes(ts[1..])
  }

  lemma {:induction false} QueueAppend(ts: seq<Tree>, more: seq<Tree>)
    ensures SitesBelow(ts + more) == SitesBelow(ts) + SitesBelow(more)
    ensures Sizes(ts + more) == Sizes(ts) + Sizes(more)
    decreases |ts|
  {
    if ts == [] {
      assert ts + more == more;
    } else {
      QueueAppend(ts[1..], more);
      assert (ts + more)[1..] == ts[1..] + more;
    }
  }

  /** `mutation_sites`: a breadth-first walk with a queue. */
  method MutationSites(tree: Tree) returns (count: nat)
    ensures count == SitesOf(tree) == KindsOf(tree)[Mutable] + KindsOf(tree)[Constant(false)]
  {
    SitesByKind(tree.children);
    var todo := [tree];
    count := 0;
    while todo != []
      invariant count + SitesBelow(todo) == SitesOf(tree)
      decreases Sizes(todo)
    {
      var node := todo[0];
      QueueAppend(todo[1..], node.children);
      assert Sizes(todo) == Size(node) + Sizes(todo[1..]);
      todo := todo[1..] + node.children;
      count := count + if IsSite(node) then 1 else 0;
    }
  }

  /** For a module, whose root is no site, the two counts agree. */
  method CountsAgree(tree: Tree) returns (counts: seq<Bucket>, count: nat)
    requires !IsSite(tree)
    ensures Total(counts) == count == SitesOf(tree)
  {
    counts := FunctionSites(tree);
    count := MutationSites(tree);
  }
}
