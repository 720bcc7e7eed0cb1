/** The greedy split of a file's functions into groups under a site budget. */
module SplitPlan {
  import opened Orders
  import opened Sites

  type Group = seq<Bucket>

  function Flatten(groups: seq<Group>): seq<Bucket> {
    if groups == [] then [] else Flatten(groups[..|groups| - 1]) + groups[|groups| - 1]
  }

  ghost predicate Fits(groups: seq<Group>, limit: int) {
    forall i :: 0 <= i < |groups| ==> Total(groups[i]) <= limit
  }

  /** Every contiguous partition within the limit that covers more than `n` functions has at least `least` groups. */
  ghost predicate NeedsAtLeast(functions: seq<Bucket>, limit: int, n: nat, least: nat) {
    forall groups :: Fits(groups, limit) && Flatten(groups) <= functions && |Flatten(groups)| > n ==> |groups| >= least
  }

  lemma {:induction false} TotalAppend(a: seq<Bucket>, b: seq<Bucket>)
    ensures Total(a + b) == Total(a) + Total(b)
    decreases |a|
  {
    if a == [] {
      assert a + b == b;
    } else {
      TotalAppend(a[1..], b);
      assert (a + b)[1..] == a[1..] + b;
    }
  }

  lemma TotalCut(s: seq<Bucket>, i: nat, k: nat, j: nat)
    requires i <= k <= j <= |s|
    ensures Total(s[i..j]) == Total(s[i..k]) + Total(s[k..j])
  {
    assert s[i..j] == s[i..k] + s[k..j];
    TotalAppend(s[i..k], s[k..j]);
  }

  /** A slice that holds a whole group and the function after it weighs at least as much as both. */
  lemma SliceOverflows(functions: seq<Bucket>, start: nat, closed: nat, n: nat, stop: nat)
    requires start <= closed <= n < stop <= |functions|
    ensures Total(functions[start..stop]) >= Total(functions[closed..n]) + functions[n].count
  {
    TotalCut(functions, start, closed, stop);
    TotalCut(functions, closed, n, stop);
    TotalCut(functions, n, n + 1, stop);
    assert functions[n..n + 1] == [functions[n]];
  }

  lemma PrefixParts<T>(s: seq<T>, a: seq<T>, b: seq<T>)
    requires a + b <= s
    ensures a <= s && b == s[|a|..|a| + |b|]
  {
    assert a + b == s[..|a| + |b|];
    assert a == (a + b)[..|a|] && b == (a + b)[|a|..];
  }

  /** Closing a full group was unavoidable: a partition reaching past the function that did not fit has one
      group more than any partition reaching past the start of the group. */
  lemma OneMoreGroup(functions: seq<Bucket>, limit: int, closed: nat, n: nat, least: nat, groups: seq<Group>)
    requires closed <= n < |functions| && Total(functions[closed..n]) + functions[n].count > limit
    requires NeedsAtLeast(functions, limit, closed, least)
    requires Fits(groups, limit) && Flatten(groups) <= functions && |Flatten(groups)| > n
    ensures |groups| >= least + 1
  {
    var init, last := groups[..|groups| - 1], groups[|groups| - 1];
    PrefixParts(functions, Flatten(init), last);
    if |Flatten(init)| <= closed {
      SliceOverflows(functions, |Flatten(init)|, closed, n, |Flatten(groups)|);
    }
  }

  lemma CloseGroup(functions: seq<Bucket>, limit: int, closed: nat, n: nat, least: nat)
    requires closed <= n < |functions| && Total(functions[closed..n]) + functions[n].count > limit
    requires NeedsAtLeast(functions, limit, closed, least)
    ensures NeedsAtLeast(functions, limit, n, least + 1)
  {
    forall groups | Fits(groups, limit) && Flatten(groups) <= functions && |Flatten(groups)| > n
      ensures |groups| >= least + 1
    {
      OneMoreGroup(functions, limit, closed, n, least, groups);
    }
  }

  lemma OneMore(functions: seq<Bucket>, closed: seq<Bucket>, current: seq<Bucket>, k: nat)
    requires k < |functions| && closed + current == functions[..k]
    ensures closed + (current + [functions[k]]) == functions[..k + 1]
    ensures Total(current + [functions[k]]) == Total(current) + functions[k].count
  {
    TotalAppend(current, [functions[k]]);
  }

  function Closed(groups: seq<Group>, current: Group): (r: seq<Group>)
    ensures Flatten(r) == Flatten(groups) + current
    ensures |r| == |groups| + 1 && r[|groups|] == current && r[..|groups|] == groups
  {
    groups + [current]
  }

  lemma FirstGroup(functions: seq<Bucket>, limit: int)
    ensures NeedsAtLeast(functions, limit, 0, 1)
  {
  }

  /** The loop after the first `k` functions: the closed groups and the current one hold them in order, within the
      limit, and every partition that reaches past the closed ones has as many groups. */
  ghost predicate Partitioning(functions: seq<Bucket>, limit: int, groups: seq<Group>, current: Group, total: int,
                               k: nat)
  {
    && k <= |functions| && Flatten(groups) + current == functions[..k] && total == Total(current)
    && Fits(groups, limit) && (|current| > 0 ==> total <= limit) && (k > 0 ==> |current| > 0)
    && (forall i :: 0 <= i < |groups| ==> |groups[i]| > 0)
    && NeedsAtLeast(functions, limit, |Flatten(groups)|, if k > 0 then |groups| + 1 else 0)
  }

  /** The next function joins the current group. */
  lemma TakesNext(functions: seq<Bucket>, limit: int, groups: seq<Group>, current: Group, total: int, k: nat)
    requires Partitioning(functions, limit, groups, current, total, k) && k < |functions|
    requires functions[k].count <= limit && (|current| > 0 ==> total + functions[k].count <= limit)
    ensures Partitioning(functions, limit, groups, current + [functions[k]], total + functions[k].count, k + 1)
  {
    hide NeedsAtLeast, Flatten, Fits, Total;
    NoTotal();
    OneMore(functions, Flatten(groups), current, k);
    if k == 0 {
      NothingClosed(groups, current);
      FirstGroup(functions, limit);
    }
  }

  lemma NothingClosed(groups: seq<Group>, current: Group)
    requires Flatten(groups) + current == [] && forall i :: 0 <= i < |groups| ==> |groups[i]| > 0
    ensures groups == [] && Flatten(groups) == []
  {}

  /** The next function does not fit: the current group is closed, as it must be in every partition. */
  lemma ClosesCurrent(functions: seq<Bucket>, limit: int, groups: seq<Group>, current: Group, total: int, k: nat)
    requires Partitioning(functions, limit, groups, current, total, k) && k < |functions|
    requires |current| > 0 && total + functions[k].count > limit && functions[k].count <= limit
    ensures Partitioning(functions, limit, Closed(groups, current), [functions[k]], functions[k].count, k + 1)
  {
    hide NeedsAtLeast, Flatten, Total;
    assert current == functions[|Flatten(groups)|..k];
    assert Flatten(groups) + current + [] == functions[..k];
    CloseGroup(functions, limit, |Flatten(groups)|, k, |groups| + 1);
    OneMore(functions, Flatten(Closed(groups, current)), [], k);
    NoTotal();
    assert [] + [functions[k]] == [functions[k]];
  }

  lemma NoTotal()
    ensures Total([]) == 0
  {}

  lemma PartitionStarts(functions: seq<Bucket>, limit: int)
    ensures Partitioning(functions, limit, [], [], 0, 0)
  {}

  lemma PartitionEnds(functions: seq<Bucket>, limit: int, groups: seq<Group>, current: Group, total: int)
    requires Partitioning(functions, limit, groups, current, total, |functions|)
    ensures var r := if |current| > 0 then Closed(groups, current) else groups;
      && Flatten(r) == functions && Fits(r, limit) && (forall i :: 0 <= i < |r| ==> |r[i]| > 0)
      && forall other :: Fits(other, limit) && Flatten(other) == functions ==> |r| <= |other|
  {
    assert functions[..|functions|] == functions;
    if |current| == 0 {
      NothingClosed(groups, current);
    }
  }

  /** The partition loop: in order, nonempty groups within the limit, and as few as any partition. */
  method Partition(functions: seq<Bucket>, limit: int) returns (groups: seq<Group>)
    requires forall i :: 0 <= i < |functions| ==> functions[i].count <= limit
    ensures Flatten(groups) == functions && Fits(groups, limit)
    ensures forall i :: 0 <= i < |groups| ==> |groups[i]| > 0
    ensures forall other :: Fits(other, limit) && Flatten(other) == functions ==> |groups| <= |other|
  {
    hide Partitioning, Flatten, Fits;
    PartitionStarts(functions, limit);
    groups := [];
    var current: Group, total := [], 0;
    var k := 0;
    while k < |functions|
      invariant 0 <= k <= |functions|
      invariant Partitioning(functions, limit, groups, current, total, k)
    {
      if |current| > 0 && total + functions[k].count > limit {
        ClosesCurrent(functions, limit, groups, current, total, k);
        groups := Closed(groups, current);
        current, total := [], 0;
        assert current + [functions[k]] == [functions[k]];
      } else {
        TakesNext(functions, limit, groups, current, total, k);
      }
      current := current + [functions[k]];
      total := total + functions[k].count;
      k := k + 1;
    }
    PartitionEnds(functions, limit, groups, current, total);
    if |current| > 0 {
      groups := Closed(groups, current);
    }
  }

  // ----- the plan -----

  datatype Part = Part(functions: seq<string>, sites: nat)

  datatype Report =
    | TooLarge(oversize: seq<Bucket>)
    | Split(totalSites: nat, moduleSites: nat, parts: seq<Part>)

  function Names(group: Group): seq<string> {
    if group == [] then [] else [group[0].name] + Names(group[1..])
  }

  /** `sum(functions[name] for name in names)` */
  function SumByName(functions: seq<Bucket>, names: seq<string>): nat {
    if names == [] then 0 else CountOf(functions, names[0]) + SumByName(functions, names[1..])
  }

  function PartsOf(functions: seq<Bucket>, groups: seq<Group>): (parts: seq<Part>)
    ensures |parts| == |groups|
  {
    if groups == [] then []
    else PartsOf(functions, groups[..|groups| - 1])
         + [Part(Names(groups[|groups| - 1]), SumByName(functions, Names(groups[|groups| - 1])))]
  }

  function SitesInParts(parts: seq<Part>): nat {
    if parts == [] then 0 else SitesInParts(parts[..|parts| - 1]) + parts[|parts| - 1].sites
  }

  /** The counts without the module bucket, in order. */
  function FunctionsOf(counts: seq<Bucket>): (r: seq<Bucket>)
    ensures forall b :: b in r <==> b in counts && b.name != MODULE_BUCKET
  {
    if counts == [] then []
    else (if counts[0].name != MODULE_BUCKET then [counts[0]] else []) + FunctionsOf(counts[1..])
  }

  function Oversize(functions: seq<Bucket>, limit: int): (r: seq<Bucket>)
    ensures forall b :: b in r <==> b in functions && b.count > limit
  {
    if functions == [] then []
    else (if functions[0].count > limit then [functions[0]] else []) + Oversize(functions[1..], limit)
  }

  /** In the order of the other list. */
  ghost predicate InOrderOf(r: seq<Bucket>, s: seq<Bucket>) {
    forall i, j :: 0 <= i < j < |r| ==> r[i] in s && r[j] in s && IndexOf(s, r[i]) < IndexOf(s, r[j])
  }

  lemma {:induction false} FunctionsInOrder(counts: seq<Bucket>)
    requires NamesDistinct(counts)
    ensures InOrderOf(FunctionsOf(counts), counts)
  {
    if counts != [] {
      FunctionsInOrder(counts[1..]);
      BehindFirst(FunctionsOf(counts[1..]), counts);
    }
  }

  lemma {:induction false} OversizeInOrder(functions: seq<Bucket>, limit: int)
    requires NamesDistinct(functions)
    ensures InOrderOf(Oversize(functions, limit), functions)
  {
    if functions != [] {
      OversizeInOrder(functions[1..], limit);
      BehindFirst(Oversize(functions[1..], limit), functions);
    }
  }

  lemma BehindFirst(r: seq<Bucket>, s: seq<Bucket>)
    requires s != [] && NamesDistinct(s) && InOrderOf(r, s[1..]) && forall b :: b in r ==> b in s[1..]
    ensures InOrderOf(r, s) && InOrderOf([s[0]] + r, s)
  {
    forall b | b in s[1..] ensures b in s && IndexOf(s, b) == 1 + IndexOf(s[1..], b) {
      var i :| 0 <= i < |s| - 1 && s[1..][i] == b;
      assert s[i + 1] == b && s[0].name != b.name;
    }
    assert forall b :: b in r ==> b in s[1..];
  }

  lemma {:induction false} FunctionsKeepDistinct(counts: seq<Bucket>)
    requires NamesDistinct(counts)
    ensures NamesDistinct(FunctionsOf(counts))
  {
    if counts != [] {
      FunctionsKeepDistinct(counts[1..]);
      var rest := FunctionsOf(counts[1..]);
      forall j | 0 <= j < |rest| ensures rest[j].name != counts[0].name {
        assert rest[j] in rest && rest[j] in counts[1..];
      }
    }
  }

  lemma {:induction false} TotalSplits(counts: seq<Bucket>)
    requires NamesDistinct(counts)
    ensures Total(counts) == Total(FunctionsOf(counts)) + CountOf(counts, MODULE_BUCKET)
  {
    if counts != [] {
      if counts[0].name == MODULE_BUCKET {
        NoneLeft(counts[1..]);
        assert FunctionsOf(counts) == counts[1..];
      } else {
        TotalSplits(counts[1..]);
      }
    }
  }

  lemma {:induction false} NoneLeft(counts: seq<Bucket>)
    requires forall i :: 0 <= i < |counts| ==> counts[i].name != MODULE_BUCKET
    ensures FunctionsOf(counts) == counts
  {
    if counts != [] {
      NoneLeft(counts[1..]);
    }
  }

  /** Looking sizes up by name gives back the group's own total. */
  lemma {:induction false} SumByNameIsTotal(functions: seq<Bucket>, group: Group)
    requires NamesDistinct(functions) && forall b :: b in group ==> b in functions
    ensures SumByName(functions, Names(group)) == Total(group)
  {
    if group != [] {
      SumByNameIsTotal(functions, group[1..]);
      CountOfMember(functions, group[0]);
    }
  }

  lemma {:induction false} CountOfMember(functions: seq<Bucket>, b: Bucket)
    requires NamesDistinct(functions) && b in functions
    ensures CountOf(functions, b.name) == b.count
  {
    if functions[0] != b {
      var i :| 0 <= i < |functions| && functions[i] == b;
      assert functions[1..][i - 1] == b && functions[0].name != b.name;
      CountOfMember(functions[1..], b);
    }
  }

  lemma {:induction false} PartsAddUp(functions: seq<Bucket>, groups: seq<Group>)
    requires NamesDistinct(functions) && forall b :: b in Flatten(groups) ==> b in functions
    ensures SitesInParts(PartsOf(functions, groups)) == Total(Flatten(groups))
    decreases |groups|
  {
    if groups != [] {
      var init, last := groups[..|groups| - 1], groups[|groups| - 1];
      PartsAddUp(functions, init);
      SumByNameIsTotal(functions, last);
      TotalAppend(Flatten(init), last);
      assert PartsOf(functions, groups)[..|groups| - 1] == PartsOf(functions, init);
    }
  }

  /** The parts name the groups' functions, in order, with the groups' own totals. */
  predicate IsPart(part: Part, group: Group) {
    && |part.functions| == |group| && (forall j :: 0 <= j < |group| ==> part.functions[j] == group[j].name)
    && part.sites == Total(group)
  }

  ghost predicate ArePartsOf(parts: seq<Part>, groups: seq<Group>) {
    |parts| == |groups| && forall i :: 0 <= i < |groups| ==> IsPart(parts[i], groups[i])
  }

  lemma {:induction false} PartsShowGroups(functions: seq<Bucket>, groups: seq<Group>)
    requires NamesDistinct(functions) && forall b :: b in Flatten(groups) ==> b in functions
    ensures ArePartsOf(PartsOf(functions, groups), groups)
    decreases |groups|
  {
    if groups != [] {
      var init, last := groups[..|groups| - 1], groups[|groups| - 1];
      PartsShowGroups(functions, init);
      SumByNameIsTotal(functions, last);
      NamesShowGroup(last);
    }
  }

  lemma {:induction false} NamesShowGroup(group: Group)
    ensures |Names(group)| == |group| && forall j :: 0 <= j < |group| ==> Names(group)[j] == group[j].name
  {
    if group != [] {
      NamesShowGroup(group[1..]);
    }
  }

  /** The functions are all the counted ones but the module, in order. */
  ghost predicate AreFunctions(functions: seq<Bucket>, counts: seq<Bucket>) {
    && (forall b :: b in functions <==> b in counts && b.name != "<module>")
    && InOrderOf(functions, counts) && NamesDistinct(functions)
  }

  /** `plan` on the counts of one file. */
  method Plan(counts: seq<Bucket>, limit: int) returns (report: Report)
    requires NamesDistinct(counts)
    ensures report.TooLarge? <==> exists b :: b in counts && b.name != "<module>" && b.count > limit
    ensures report.TooLarge? ==>
              && (forall b :: b in report.oversize <==> b in counts && b.name != "<module>" && b.count > limit)
              && InOrderOf(report.oversize, FunctionsOf(counts))
    ensures AreFunctions(FunctionsOf(counts), counts)
    ensures report.Split? ==>
              && report.totalSites == Total(counts)
              && report.moduleSites == CountOf(counts, "<module>")
              && SitesInParts(report.parts) + report.moduleSites == report.totalSites
              && (forall other :: Fits(other, limit) && Flatten(other) == FunctionsOf(counts) ==>
                    |report.parts| <= |other|)
              && exists groups :: Fits(groups, limit) && Flatten(groups) == FunctionsOf(counts)
                   && (forall i :: 0 <= i < |groups| ==> groups[i] != [])
                   && ArePartsOf(report.parts, groups)
  {
    var functions := FunctionsOf(counts);
    var oversize := Oversize(functions, limit);
    FunctionsKeepDistinct(counts);
    FunctionsInOrder(counts);
    OversizeInOrder(functions, limit);
    if oversize != [] {
      assert oversize[0] in oversize;
      return TooLarge(oversize);
    }
    forall i | 0 <= i < |functions| ensures functions[i].count <= limit {
      assert functions[i] in functions && functions[i] !in oversize;
    }
    var groups := Partition(functions, limit);
    PartsAddUp(functions, groups);
    PartsShowGroups(functions, groups);
    TotalSplits(counts);
    report := Split(Total(counts), CountOf(counts, MODULE_BUCKET), PartsOf(functions, groups));
  }

  /** A file's plan accounts for every mutation site of its syntax tree. */
  method PlanFile(tree: Tree, limit: int) returns (report: Report)
    requires !IsSite(tree)
    ensures report.Split? ==>
              SitesInParts(report.parts) + report.moduleSites
              == KindsOf(tree)[Mutable] + KindsOf(tree)[Constant(false)]
  {
    var counts := FunctionSites(tree);
    report := Plan(counts, limit);
    SitesByKind(tree.children);
  }
}
