/** What the expansion of a task graph does to its nodes: none with several inputs is duplicated, and
    every inner node of the chosen path ends with one instance for every GPU. */
module Instances {
  import opened G = Graph
  import opened Expand
  import opened NodeTable
  import opened PathSearch
  import opened TaskGraph
  import U = UfoGraph

  ghost predicate ManyInputs(edges: seq<Edge>, v: nat) {
    |Predecessors(edges, v)| > 1
  }

  lemma CommonLast(edges: seq<Edge>, init: seq<nat>, v: nat)
    ensures |Common(edges, init + [v])| == |Common(edges, init)| + if ManyInputs(edges, v) then 1 else 0
  {
    assert (init + [v])[..|init|] == init;
  }

  lemma CommonPair(edges: seq<Edge>, p: seq<nat>, i: nat)
    requires i < |p| - 1 && ManyInputs(edges, p[i]) && ManyInputs(edges, p[|p| - 1])
    ensures |Common(edges, p)| >= 2
  {
    var init := p[..|p| - 1];
    assert init + [p[|p| - 1]] == p;
    CommonLast(edges, init, p[|p| - 1]);
    assert init[i] in init;
    CommonInPath(edges, init, init[i]);
  }

  lemma {:induction false} CommonGrows(edges: seq<Edge>, path: seq<nat>, n: nat)
    requires n <= |path|
    ensures |Common(edges, path[..n])| <= |Common(edges, path)|
    decreases |path| - n
  {
    if n == |path| {
      assert path[..n] == path;
    } else {
      CommonGrows(edges, path, n + 1);
      assert path[..n + 1] == path[..n] + [path[n]];
      CommonLast(edges, path[..n], path[n]);
    }
  }

  lemma TwoCommon(edges: seq<Edge>, path: seq<nat>, i: nat, j: nat)
    requires i < j < |path| && ManyInputs(edges, path[i]) && ManyInputs(edges, path[j])
    ensures |Common(edges, path)| >= 2
  {
    var p := path[..j + 1];
    CommonPair(edges, p, i);
    CommonGrows(edges, path, j + 1);
  }

  /** Two nodes with several inputs on the path: the graph stays as it is. */
  lemma TwoCommonUnchanged(g: Topology, first: nat, path: seq<nat>, gpus: nat, i: nat, j: nat)
    requires i < j < |path| && ManyInputs(g.edges, path[i]) && ManyInputs(g.edges, path[j])
    ensures TaskExpanded(g, first, path, gpus) == Growth(g, [], 0)
  {
    TwoCommon(g.edges, path, i, j);
  }

  lemma {:induction false} BehindFirst(path: seq<nat>, c: nat) returns (k: nat)
    requires c in path
    ensures k < |path| && path[k] == c && Behind(path, c) == path[k + 1..]
  {
    if path[0] == c {
      k := 0;
    } else {
      var r := BehindFirst(path[1..], c);
      k := r + 1;
      assert path[1..][r + 1..] == path[k + 1..];
    }
  }

  /** Pruning leaves the end of the path, without nodes that have several inputs. */
  lemma PrunedPart(edges: seq<Edge>, path: seq<nat>) returns (k: nat)
    requires |Common(edges, path)| <= 1
    ensures k <= |path| && Pruned(edges, path) == path[k..]
    ensures forall i :: k <= i < |path| ==> !ManyInputs(edges, path[i])
  {
    var common := Common(edges, path);
    if common == [] {
      k := 0;
      forall i | 0 <= i < |path|
        ensures !ManyInputs(edges, path[i])
      {
        assert path[i] in path;
        CommonInPath(edges, path, path[i]);
      }
    } else {
      assert common[0] in common;
      CommonInPath(edges, path, common[0]);
      var j := BehindFirst(path, common[0]);
      k := j + 1;
      forall i | k <= i < |path|
        ensures !ManyInputs(edges, path[i])
      {
        if ManyInputs(edges, path[i]) {
          TwoCommon(edges, path, j, i);
        }
      }
    }
  }

  lemma SubPath(edges: seq<Edge>, path: seq<nat>, k: nat)
    requires IsPath(edges, path) && k <= |path|
    ensures IsPath(edges, path[k..])
  {
    forall i | 0 < i < |path[k..]|
      ensures Linked(edges, path[k..], i)
    {
      assert Linked(edges, path, k + i);
    }
  }

  lemma PrependPath(g: Topology, u: nat, path: seq<nat>)
    requires path != [] && IsPath(g.edges, path) && AllIn(g, path) && Closed(g) && Joined(g.edges, u, path[0])
    ensures IsPath(g.edges, [u] + path) && AllIn(g, [u] + path)
  {
    var p := [u] + path;
    forall i | 0 < i < |p|
      ensures Linked(g.edges, p, i)
    {
      assert i > 1 ==> Linked(g.edges, path, i - 1);
    }
  }

  lemma AppendPath(g: Topology, path: seq<nat>, u: nat)
    requires path != [] && IsPath(g.edges, path) && AllIn(g, path) && Closed(g) && Joined(g.edges, path[|path| - 1], u)
    ensures IsPath(g.edges, path + [u]) && AllIn(g, path + [u])
  {
    var p := path + [u];
    forall i | 0 < i < |p|
      ensures Linked(g.edges, p, i)
    {
      assert i < |path| ==> Linked(g.edges, path, i);
    }
  }

  /** Extending a path at both ends gives a path whose inner nodes are nodes of the path. */
  lemma ExtendedPath(g: Topology, inner: seq<nat>)
    requires inner != [] && IsPath(g.edges, inner) && AllIn(g, inner) && Closed(g)
    ensures var p := Extended(g.edges, inner);
            && IsPath(g.edges, p) && AllIn(g, p)
            && forall k :: 0 < k < |p| - 1 ==> p[k] in inner
  {
    var before, after := Predecessors(g.edges, inner[0]), Successors(g.edges, inner[|inner| - 1]);
    var head := if before != [] then [before[0]] else [];
    if before != [] {
      assert before[0] in before;
      PredecessorsHas(g.edges, inner[0], before[0]);
      PrependPath(g, before[0], inner);
    }
    assert head + inner == inner || head + inner == [before[0]] + inner;
    if after != [] {
      assert after[0] in after;
      SuccessorsHas(g.edges, inner[|inner| - 1], after[0]);
      AppendPath(g, head + inner, after[0]);
    } else {
      assert Extended(g.edges, inner) == head + inner;
    }
  }

  /** The chosen path can be duplicated: no inner node has several inputs. */
  lemma TargetDuplicable(g: Topology, rank: nat -> nat, top: nat, pred: nat -> bool, path: seq<nat>)
    requires Acyclic(g, rank, top) && Longest(g, rank, top, pred, path)
    ensures var target := Target(g.edges, path);
            && IsPath(g.edges, target) && AllIn(g, target) && TailApart(target)
            && (|target| >= 3 ==> Duplicable(g, target))
  {
    var target := Target(g.edges, path);
    if target != [] {
      FoundNonEmpty(g.edges, path);
      FoundPath(g, rank, top, pred, path);
      var k := PrunedPart(g.edges, path);
      SubPath(g.edges, path, k);
      ExtendedPath(g, path[k..]);
      forall i | 0 < i < |target| - 1
        ensures !ManyInputs(g.edges, target[i])
      {
        assert target[i] in path[k..];
      }
    }
    AcyclicTail(g.edges, rank, target);
  }

  lemma FoundNonEmpty(edges: seq<Edge>, path: seq<nat>)
    requires Target(edges, path) != []
    ensures path != []
  {
  }

  /** A target without inner nodes changes nothing. */
  lemma {:induction false} ShortTarget(g: Topology, first: nat, path: seq<nat>, n: nat)
    requires |path| <= 2 && IsPath(g.edges, path) && Below(g, first)
    ensures ExpandTimes(g, first, path, n) == Growth(g, [], 0)
  {
    if n > 0 {
      ShortTarget(g, first, path, n - 1);
      ExpandedForm(g, first, path);
    }
  }

  // Counting instances.

  function Occurrences(s: seq<nat>, v: nat): nat {
    if s == [] then 0 else Occurrences(s[..|s| - 1], v) + if s[|s| - 1] == v then 1 else 0
  }

  lemma {:induction false} OccurrencesAppend(a: seq<nat>, b: seq<nat>, v: nat)
    ensures Occurrences(a + b, v) == Occurrences(a, v) + Occurrences(b, v)
  {
    if b == [] {
      assert a + b == a;
    } else {
      assert (a + b)[..|a + b| - 1] == a + b[..|b| - 1];
      OccurrencesAppend(a, b[..|b| - 1], v);
    }
  }

  lemma {:induction false} OccursOnce(s: seq<nat>, k: nat)
    requires Distinct(s) && k < |s|
    ensures Occurrences(s, s[k]) == 1
  {
    var n := |s| - 1;
    if k < n {
      assert s[..n][k] == s[k];
      OccursOnce(s[..n], k);
    } else {
      OccursNever(s[..n], s[n]);
    }
  }

  lemma {:induction false} OccursNever(s: seq<nat>, v: nat)
    requires forall i :: 0 <= i < |s| ==> s[i] != v
    ensures Occurrences(s, v) == 0
  {
    if s != [] {
      OccursNever(s[..|s| - 1], v);
    }
  }

  lemma {:induction false} RoundsCount(s: seq<nat>, n: nat, k: nat)
    requires Distinct(s) && k < |s|
    ensures Occurrences(Rounds(s, n), s[k]) == n
  {
    if n > 0 {
      RoundsCount(s, n - 1, k);
      OccursOnce(s, k);
      OccurrencesAppend(Rounds(s, n - 1), s, s[k]);
    }
  }

  /** Nodes that are no copies. */
  ghost predicate Originals(t: Table, s: seq<nat>)
    requires Sound(t)
  {
    forall i :: 0 <= i < |s| ==> s[i] < |t.orig| && t.orig[s[i]] == s[i]
  }

  /** Copying keeps the numbering of families, and counts every copy at its original. */
  lemma {:induction false} CopiedAllCounts(t: Table, made: seq<nat>, v: nat)
    requires Sound(t) && Numbered(t) && Originals(t, made) && v < |t.orig| && t.orig[v] == v
    ensures Numbered(U.CopiedAll(t, made))
    ensures var r := U.CopiedAll(t, made);
            && r.orig[..|t.orig|] == t.orig && r.total[v] == t.total[v] + Occurrences(made, v)
  {
    if made != [] {
      var n := |made| - 1;
      CopiedAllCounts(t, made[..n], v);
      var r := U.CopiedAll(t, made[..n]);
      CopiedNumbered(r, made[n]);
      assert r.orig[made[n]] == r.orig[..|t.orig|][made[n]] == made[n];
    }
  }

  lemma {:induction false} RoundsOriginals(t: Table, s: seq<nat>, n: nat)
    requires Sound(t) && Originals(t, s)
    ensures Originals(t, Rounds(s, n))
  {
    if n > 0 {
      RoundsOriginals(t, s, n - 1);
    }
  }

  lemma InnerDistinct(edges: seq<Edge>, rank: nat -> nat, path: seq<nat>)
    requires IsPath(edges, path) && Ranked(edges, rank) && |path| >= 2
    ensures Distinct(path[1..|path| - 1])
  {
    var inner := path[1..|path| - 1];
    forall i, j | 0 <= i < j < |inner|
      ensures inner[i] != inner[j]
    {
      RankGrows(edges, rank, path, i + 1, j + 1);
    }
  }

  /** After `n` rounds of copies every fresh node of `s` has a family of `n` + 1. */
  lemma RoundsInstances(t: Table, s: seq<nat>, n: nat, k: nat) returns (r: Table)
    requires Sound(t) && Numbered(t) && Originals(t, s) && Distinct(s) && k < |s| && t.total[s[k]] == 1
    ensures Originals(t, Rounds(s, n)) && r == U.CopiedAll(t, Rounds(s, n)) && FullFamily(r, s[k], n + 1)
  {
    RoundsOriginals(t, s, n);
    RoundsCount(s, n, k);
    CopiedAllCounts(t, Rounds(s, n), s[k]);
    r := U.CopiedAll(t, Rounds(s, n));
    assert r.orig[s[k]] == r.orig[..|t.orig|][s[k]] == s[k];
  }

  /** The family of `v` counts `n` members with the indices 0..n-1, each exactly once. */
  ghost predicate FullFamily(t: Table, v: nat, n: nat) {
    && Sound(t) && Numbered(t) && v < |t.orig| && t.orig[v] == v && t.total[v] == n
    && forall i :: 0 <= i < n ==> HasMember(t, v, i)
  }

  lemma TaskExpandedIs(g: Topology, first: nat, path: seq<nat>, gpus: nat, target: seq<nat>, x: Growth)
    requires target == Target(g.edges, path) && target != [] && x == ExpandTimes(g, first, target, Extra(gpus))
    ensures x == TaskExpanded(g, first, path, gpus)
  {
  }

  /** The expansion copies the inner nodes of the chosen path, round after round. */
  lemma TargetRounds(g: Topology, first: nat, path: seq<nat>, gpus: nat, target: seq<nat>) returns (x: Growth)
    requires Below(g, first) && target == Target(g.edges, path) && Duplicable(g, target) && TailApart(target)
    ensures x == TaskExpanded(g, first, path, gpus) && x.made == Rounds(target[1..|target| - 1], Extra(gpus))
  {
    x := ExpandTimesCopies(g, first, target, Extra(gpus));
    TaskExpandedIs(g, first, path, gpus, target, x);
  }

  lemma FoundRounds(g: Topology, first: nat, rank: nat -> nat, top: nat, pred: nat -> bool, path: seq<nat>, gpus: nat,
                    target: seq<nat>) returns (x: Growth)
    requires Acyclic(g, rank, top) && Longest(g, rank, top, pred, path) && Below(g, first)
    requires gpus >= 1 && target == Target(g.edges, path) && |target| >= 3
    ensures x == TaskExpanded(g, first, path, gpus)
    ensures x.made == Rounds(target[1..|target| - 1], Extra(gpus)) && Distinct(target[1..|target| - 1])
  {
    TargetDuplicable(g, rank, top, pred, path);
    InnerDistinct(g.edges, rank, target);
    x := TargetRounds(g, first, path, gpus, target);
  }

  lemma TableAfter(t: Table, target: seq<nat>, gpus: nat, k: nat) returns (r: Table)
    requires Sound(t) && Numbered(t) && Originals(t, target) && gpus >= 1
    requires 0 < k < |target| - 1 && t.total[target[k]] == 1 && Distinct(target[1..|target| - 1])
    ensures Originals(t, Rounds(target[1..|target| - 1], Extra(gpus)))
    ensures r == U.CopiedAll(t, Rounds(target[1..|target| - 1], Extra(gpus))) && FullFamily(r, target[k], gpus)
  {
    var inner := target[1..|target| - 1];
    assert inner[k - 1] == target[k];
    r := RoundsInstances(t, inner, Extra(gpus), k - 1);
  }

  /** Every inner node of the chosen path ends with exactly one instance for every GPU: the family of
      a fresh node counts `gpus` members. `r` is the table of families after the expansion. */
  lemma InnerInstances(g: Topology, t: Table, rank: nat -> nat, top: nat, pred: nat -> bool, path: seq<nat>, gpus: nat,
                       target: seq<nat>, k: nat) returns (x: Growth, r: Table)
    requires Acyclic(g, rank, top) && Longest(g, rank, top, pred, path) && target == Target(g.edges, path)
    requires Sound(t) && Numbered(t) && Originals(t, target) && Below(g, |t.orig|)
    requires gpus >= 1 && 0 < k < |target| - 1 && t.total[target[k]] == 1
    ensures x == TaskExpanded(g, |t.orig|, path, gpus) && Originals(t, x.made)
    ensures r == U.CopiedAll(t, x.made) && FullFamily(r, target[k], gpus)
  {
    x := FoundRounds(g, |t.orig|, rank, top, pred, path, gpus, target);
    r := TableAfter(t, target, gpus, k);
  }

  /** A node with several inputs is never copied. */
  lemma ManyInputsNotCopied(g: Topology, first: nat, rank: nat -> nat, top: nat, pred: nat -> bool, path: seq<nat>,
                            gpus: nat, v: nat)
    requires Acyclic(g, rank, top) && Longest(g, rank, top, pred, path) && Below(g, first) && ManyInputs(g.edges, v)
    ensures v !in TaskExpanded(g, first, path, gpus).made
  {
    var target := Target(g.edges, path);
    var n := Extra(gpus);
    TargetDuplicable(g, rank, top, pred, path);
    if |target| >= 3 {
      var x := ExpandTimesCopies(g, first, target, n);
      RoundsFrom(target[1..|target| - 1], n, v);
    } else if target != [] {
      ShortTarget(g, first, target, n);
    }
  }

  lemma {:induction false} RoundsFrom(s: seq<nat>, n: nat, v: nat)
    ensures v in Rounds(s, n) ==> v in s
  {
    if n > 0 {
      RoundsFrom(s, n - 1, v);
    }
  }
}
