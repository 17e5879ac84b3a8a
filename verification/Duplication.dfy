/** Which tasks are duplicated, in terms of the found path and the edges of the graph alone: those behind
    the one node of the path that has several inputs, except an end that no edge enters or leaves. */
module Duplication {
  import opened G = Graph
  import opened Expand
  import opened NodeTable
  import opened PathSearch
  import opened TaskGraph
  import opened Instances
  import U = UfoGraph

  predicate Into(edges: seq<Edge>, v: nat, a: int) {
    0 <= a < |edges| && edges[a].target == v
  }

  predicate OutOf(edges: seq<Edge>, v: nat, b: int) {
    0 <= b < |edges| && edges[b].source == v
  }

  ghost predicate SeveralInputs(edges: seq<Edge>, v: nat) {
    exists a, b :: a < b && Into(edges, v, a) && Into(edges, v, b)
  }

  /** `head` is the source of the earliest edge into `v`, or nothing if no edge enters `v`. */
  ghost predicate EntersFrom(edges: seq<Edge>, v: nat, head: seq<nat>) {
    if head == [] then forall a :: !Into(edges, v, a)
    else |head| == 1 && exists a :: EarliestInto(edges, v, a) && edges[a].source == head[0]
  }

  ghost predicate EarliestInto(edges: seq<Edge>, v: nat, a: int) {
    Into(edges, v, a) && forall j :: j < a ==> !Into(edges, v, j)
  }

  /** `tail` is the target of the latest edge out of `v`, or nothing if no edge leaves `v`. */
  ghost predicate LeavesTo(edges: seq<Edge>, v: nat, tail: seq<nat>) {
    if tail == [] then forall b :: !OutOf(edges, v, b)
    else |tail| == 1 && exists b :: LatestOutOf(edges, v, b) && edges[b].target == tail[0]
  }

  ghost predicate LatestOutOf(edges: seq<Edge>, v: nat, b: int) {
    OutOf(edges, v, b) && forall j :: b < j ==> !OutOf(edges, v, j)
  }

  /** Position `k` of the path is the one behind its only node with several inputs, or the first if it
      has none. */
  ghost predicate StartsAt(edges: seq<Edge>, path: seq<nat>, k: nat) {
    && k <= |path| && (k > 0 ==> SeveralInputs(edges, path[k - 1]))
    && forall i :: 0 <= i < |path| && i != k - 1 ==> !SeveralInputs(edges, path[i])
  }

  ghost predicate Ends(edges: seq<Edge>, path: seq<nat>, k: nat, head: seq<nat>, tail: seq<nat>) {
    k < |path| && EntersFrom(edges, path[k], head) && LeavesTo(edges, path[|path| - 1], tail)
  }

  // The neighbours of a node.

  lemma {:induction false} NoPredecessor(edges: seq<Edge>, v: nat)
    ensures Predecessors(edges, v) == [] <==> forall a :: !Into(edges, v, a)
  {
    if edges != [] {
      NoPredecessor(edges[1..], v);
      assert forall a :: Into(edges[1..], v, a) ==> Into(edges, v, a + 1);
      assert edges[0].target == v ==> Into(edges, v, 0);
      if a :| Into(edges, v, a) {
        assert a > 0 ==> Into(edges[1..], v, a - 1);
      }
    }
  }

  lemma {:induction false} FirstPredecessor(edges: seq<Edge>, v: nat, a: int)
    requires EarliestInto(edges, v, a)
    ensures Predecessors(edges, v) != [] && Predecessors(edges, v)[0] == edges[a].source
  {
    if a > 0 {
      assert !Into(edges, v, 0) && Into(edges[1..], v, a - 1);
      forall j | j < a - 1
        ensures !Into(edges[1..], v, j)
      {
        assert !Into(edges, v, j + 1);
      }
      FirstPredecessor(edges[1..], v, a - 1);
    }
  }

  lemma {:induction false} NoSuccessor(edges: seq<Edge>, v: nat)
    ensures Successors(edges, v) == [] <==> forall b :: !OutOf(edges, v, b)
  {
    if edges != [] {
      NoSuccessor(edges[1..], v);
      assert forall b :: OutOf(edges[1..], v, b) ==> OutOf(edges, v, b + 1);
      assert edges[0].source == v ==> OutOf(edges, v, 0);
      if b :| OutOf(edges, v, b) {
        assert b > 0 ==> OutOf(edges[1..], v, b - 1);
      }
    }
  }

  lemma {:induction false} FirstSuccessor(edges: seq<Edge>, v: nat, b: int)
    requires LatestOutOf(edges, v, b)
    ensures Successors(edges, v) != [] && Successors(edges, v)[0] == edges[b].target
  {
    var n := |edges| - 1;
    SuccessorsAppend(edges[..n], edges[n], v);
    assert edges == edges[..n] + [edges[n]];
    if b < n {
      assert !OutOf(edges, v, n) && OutOf(edges[..n], v, b);
      forall j | b < j
        ensures !OutOf(edges[..n], v, j)
      {
        assert !OutOf(edges, v, j);
      }
      FirstSuccessor(edges[..n], v, b);
    }
  }

  lemma {:induction false} ManyInputsAre(edges: seq<Edge>, v: nat)
    ensures ManyInputs(edges, v) <==> SeveralInputs(edges, v)
  {
    if edges != [] {
      var rest := edges[1..];
      ManyInputsAre(rest, v);
      NoPredecessor(rest, v);
      if SeveralInputs(edges, v) {
        var a, b :| a < b && Into(edges, v, a) && Into(edges, v, b);
        assert Into(rest, v, b - 1);
        if a > 0 {
          assert Into(rest, v, a - 1) && a - 1 < b - 1;
        } else {
          assert edges[0].target == v;
        }
      }
      if SeveralInputs(rest, v) {
        var a, b :| a < b && Into(rest, v, a) && Into(rest, v, b);
        assert Into(edges, v, a + 1) && Into(edges, v, b + 1);
      }
      if a :| edges[0].target == v && Into(rest, v, a) {
        assert Into(edges, v, 0) && Into(edges, v, a + 1);
      }
    }
  }

  // The chosen path.

  lemma {:induction false} CommonIs(edges: seq<Edge>, path: seq<nat>, k: nat, n: nat)
    requires StartsAt(edges, path, k) && n <= |path|
    ensures Common(edges, path[..n]) == if 0 < k <= n then [path[k - 1]] else []
  {
    if n > 0 {
      CommonIs(edges, path, k, n - 1);
      assert path[..n][..n - 1] == path[..n - 1];
      ManyInputsAre(edges, path[n - 1]);
    }
  }

  lemma PrunedIs(edges: seq<Edge>, path: seq<nat>, k: nat)
    requires StartsAt(edges, path, k)
    ensures |Common(edges, path)| <= 1 && Pruned(edges, path) == path[k..]
  {
    CommonIs(edges, path, k, |path|);
    assert path[..|path|] == path;
    if k > 0 {
      assert path[k - 1] in path;
      var j := BehindFirst(path, path[k - 1]);
      assert SeveralInputs(edges, path[j]);
    }
  }

  lemma HeadIs(edges: seq<Edge>, v: nat, head: seq<nat>)
    requires EntersFrom(edges, v, head)
    ensures head == if Predecessors(edges, v) != [] then [Predecessors(edges, v)[0]] else []
  {
    if head == [] {
      NoPredecessor(edges, v);
    } else {
      var a :| EarliestInto(edges, v, a) && edges[a].source == head[0];
      FirstPredecessor(edges, v, a);
    }
  }

  lemma TailIs(edges: seq<Edge>, v: nat, tail: seq<nat>)
    requires LeavesTo(edges, v, tail)
    ensures tail == if Successors(edges, v) != [] then [Successors(edges, v)[0]] else []
  {
    if tail == [] {
      NoSuccessor(edges, v);
    } else {
      var b :| LatestOutOf(edges, v, b) && edges[b].target == tail[0];
      FirstSuccessor(edges, v, b);
    }
  }

  lemma ExtendedIs(edges: seq<Edge>, inner: seq<nat>, head: seq<nat>, tail: seq<nat>)
    requires inner != [] && EntersFrom(edges, inner[0], head) && LeavesTo(edges, inner[|inner| - 1], tail)
    ensures Extended(edges, inner) == head + inner + tail
  {
    HeadIs(edges, inner[0], head);
    TailIs(edges, inner[|inner| - 1], tail);
  }

  lemma TargetIs(edges: seq<Edge>, path: seq<nat>, k: nat, head: seq<nat>, tail: seq<nat>)
    requires StartsAt(edges, path, k) && Ends(edges, path, k, head, tail)
    ensures Target(edges, path) == head + path[k..] + tail != []
  {
    PrunedIs(edges, path, k);
    ExtendedIs(edges, path[k..], head, tail);
  }

  /** Expanding a task graph expands, for every GPU but the first, the part of the found path behind its
      node with several inputs, extended by the source of the earliest edge into it and the target of
      the latest edge out of it. */
  lemma PathExpanded(g: Topology, first: nat, path: seq<nat>, gpus: nat, k: nat, head: seq<nat>, tail: seq<nat>)
    requires StartsAt(g.edges, path, k) && Ends(g.edges, path, k, head, tail)
    ensures TaskExpanded(g, first, path, gpus)
         == ExpandTimes(g, first, head + path[k..] + tail, if gpus > 0 then gpus - 1 else 0)
  {
    TargetIs(g.edges, path, k, head, tail);
  }

  /** With no node behind it, or with two nodes that have several inputs, nothing is expanded. */
  lemma NothingExpanded(g: Topology, first: nat, path: seq<nat>, gpus: nat, i: nat, j: nat)
    requires StartsAt(g.edges, path, |path|)
             || (i < j < |path| && SeveralInputs(g.edges, path[i]) && SeveralInputs(g.edges, path[j]))
    ensures TaskExpanded(g, first, path, gpus) == Growth(g, [], 0)
  {
    if StartsAt(g.edges, path, |path|) {
      PrunedIs(g.edges, path, |path|);
    } else {
      ManyInputsAre(g.edges, path[i]);
      ManyInputsAre(g.edges, path[j]);
      TwoCommonUnchanged(g, first, path, gpus, i, j);
    }
  }

  /** These are all cases. */
  lemma {:induction false} AllCases(edges: seq<Edge>, path: seq<nat>) returns (k: nat)
    requires forall i, j :: 0 <= i < j < |path| ==> !(SeveralInputs(edges, path[i]) && SeveralInputs(edges, path[j]))
    ensures StartsAt(edges, path, k)
  {
    if i :| 0 <= i < |path| && SeveralInputs(edges, path[i]) {
      k := i + 1;
    } else {
      k := 0;
    }
  }

  // Families.

  /** A task of the path that is duplicated. */
  ghost predicate Duplicated(path: seq<nat>, k: nat, head: seq<nat>, tail: seq<nat>, v: nat) {
    exists i :: k <= i < |path| && path[i] == v && (i == k ==> head != []) && (i == |path| - 1 ==> tail != [])
  }

  /** The nodes have just been made. */
  ghost predicate New(t: Table, nodes: seq<nat>)
    requires Sound(t)
  {
    forall i :: 0 <= i < |nodes| ==> nodes[i] < |t.orig| && t.orig[nodes[i]] == nodes[i] && t.total[nodes[i]] == 1
  }

  lemma FamilyAfter(t: Table, made: seq<nat>, v: nat, r: Table)
    requires Sound(t) && Numbered(t) && Originals(t, made) && v < |t.orig| && t.orig[v] == v && t.total[v] == 1
    requires r == U.CopiedAll(t, made)
    ensures FullFamily(r, v, 1 + Occurrences(made, v))
  {
    CopiedAllCounts(t, made, v);
    assert r.orig[v] == r.orig[..|t.orig|][v] == v;
  }

  lemma NewOriginals(g: Topology, t: Table, s: seq<nat>)
    requires Sound(t) && New(t, g.nodes) && AllIn(g, s)
    ensures Originals(t, s)
  {
    forall i | 0 <= i < |s|
      ensures s[i] < |t.orig| && t.orig[s[i]] == s[i]
    {
      assert s[i] in g.nodes;
      var j :| 0 <= j < |g.nodes| && g.nodes[j] == s[i];
    }
  }

  function Inner(target: seq<nat>): seq<nat> {
    if |target| <= 2 then [] else target[1..|target| - 1]
  }

  lemma InnerIs(path: seq<nat>, k: nat, head: seq<nat>, tail: seq<nat>, target: seq<nat>, v: nat)
    requires k < |path| && |head| <= 1 && |tail| <= 1 && target == head + path[k..] + tail
    ensures v in Inner(target) <==> Duplicated(path, k, head, tail, v)
  {
    if Duplicated(path, k, head, tail, v) {
      var i :| k <= i < |path| && path[i] == v && (i == k ==> head != []) && (i == |path| - 1 ==> tail != []);
      assert Inner(target)[i - k + |head| - 1] == v;
    }
    if v in Inner(target) {
      var m :| 0 <= m < |Inner(target)| && Inner(target)[m] == v;
      var i := m + 1 - |head| + k;
      assert k <= i < |path| && path[i] == v && (i == k ==> head != []) && (i == |path| - 1 ==> tail != []);
    }
  }

  lemma InnerIn(s: seq<nat>, n: nat, v: nat)
    requires Distinct(s)
    ensures Occurrences(Rounds(s, n), v) == if v in s then n else 0
  {
    if v in s {
      var m :| 0 <= m < |s| && s[m] == v;
      RoundsCount(s, n, m);
    } else {
      RoundsFrom(s, n, v);
      OccursNever(Rounds(s, n), v);
    }
  }

  lemma InnerAllIn(g: Topology, target: seq<nat>, n: nat)
    requires AllIn(g, target)
    ensures AllIn(g, Rounds(Inner(target), n))
  {
    assert forall i :: 0 <= i < |Inner(target)| ==> Inner(target)[i] == target[i + 1];
    RoundsAllIn(g, Inner(target), n);
  }

  lemma InnerCount(edges: seq<Edge>, rank: nat -> nat, target: seq<nat>, n: nat, v: nat)
    requires IsPath(edges, target) && Ranked(edges, rank) && |target| >= 3
    ensures Occurrences(Rounds(Inner(target), n), v) == if v in Inner(target) then n else 0
  {
    InnerDistinct(edges, rank, target);
    InnerIn(Inner(target), n, v);
  }

  lemma LongCopies(g: Topology, first: nat, path: seq<nat>, gpus: nat, target: seq<nat>) returns (x: Growth)
    requires Below(g, first) && target == Target(g.edges, path) && Duplicable(g, target) && TailApart(target)
    ensures x == TaskExpanded(g, first, path, gpus) && x.made == Rounds(Inner(target), Extra(gpus))
  {
    x := TargetRounds(g, first, path, gpus, target);
  }

  lemma ShortCopies(g: Topology, first: nat, path: seq<nat>, gpus: nat, target: seq<nat>) returns (x: Growth)
    requires Below(g, first) && target == Target(g.edges, path) != [] && |target| <= 2 && IsPath(g.edges, target)
    ensures x == TaskExpanded(g, first, path, gpus) && x.made == []
  {
    x := ExpandTimes(g, first, target, Extra(gpus));
    ShortTarget(g, first, target, Extra(gpus));
    TaskExpandedIs(g, first, path, gpus, target, x);
  }

  /** How often the nodes of a chosen path are copied. */
  lemma CopiesOfTarget(g: Topology, first: nat, rank: nat -> nat, path: seq<nat>, gpus: nat, target: seq<nat>, v: nat)
    returns (x: Growth)
    requires Below(g, first) && Ranked(g.edges, rank) && target == Target(g.edges, path) != []
    requires IsPath(g.edges, target) && TailApart(target) && (|target| >= 3 ==> Duplicable(g, target))
    ensures x == TaskExpanded(g, first, path, gpus) && x.made == (if |target| >= 3 then Rounds(Inner(target), Extra(gpus)) else [])
    ensures Occurrences(x.made, v) == if v in Inner(target) then Extra(gpus) else 0
  {
    if |target| >= 3 {
      x := LongCopies(g, first, path, gpus, target);
      InnerCount(g.edges, rank, target, Extra(gpus), v);
    } else {
      x := ShortCopies(g, first, path, gpus, target);
    }
  }

  /** How often every node is copied. */
  lemma CopiesOf(g: Topology, first: nat, rank: nat -> nat, top: nat, pred: nat -> bool, path: seq<nat>, gpus: nat,
                 k: nat, head: seq<nat>, tail: seq<nat>, v: nat) returns (x: Growth)
    requires Acyclic(g, rank, top) && Longest(g, rank, top, pred, path) && Below(g, first)
    requires StartsAt(g.edges, path, k) && Ends(g.edges, path, k, head, tail)
    ensures x == TaskExpanded(g, first, path, gpus) && AllIn(g, x.made)
    ensures Occurrences(x.made, v) == if Duplicated(path, k, head, tail, v) then Extra(gpus) else 0
  {
    var target := head + path[k..] + tail;
    TargetIs(g.edges, path, k, head, tail);
    TargetDuplicable(g, rank, top, pred, path);
    x := CopiesOfTarget(g, first, rank, path, gpus, target, v);
    InnerAllIn(g, target, Extra(gpus));
    InnerIs(path, k, head, tail, target, v);
  }

  lemma RoundsAllIn(g: Topology, s: seq<nat>, n: nat)
    requires AllIn(g, s)
    ensures AllIn(g, Rounds(s, n))
  {
    forall i | 0 <= i < |Rounds(s, n)|
      ensures Rounds(s, n)[i] in g.nodes
    {
      RoundsFrom(s, n, Rounds(s, n)[i]);
    }
  }

  lemma FamilyOfNew(g: Topology, t: Table, made: seq<nat>, v: nat, n: nat) returns (r: Table)
    requires Sound(t) && Numbered(t) && New(t, g.nodes) && AllIn(g, made) && v in g.nodes && n == 1 + Occurrences(made, v)
    ensures Originals(t, made) && r == U.CopiedAll(t, made) && FullFamily(r, v, n)
  {
    NewOriginals(g, t, made);
    r := U.CopiedAll(t, made);
    var j :| 0 <= j < |g.nodes| && g.nodes[j] == v;
    FamilyAfter(t, made, v, r);
  }

  /** After the expansion every duplicated task has exactly one instance for every GPU, with the indices
      0 to `gpus` - 1, and every other node is alone. `t` holds the families of the new graph, `r` those
      of the expanded one. */
  lemma PathInstances(g: Topology, t: Table, rank: nat -> nat, top: nat, pred: nat -> bool, path: seq<nat>, gpus: nat,
                      k: nat, head: seq<nat>, tail: seq<nat>, v: nat) returns (x: Growth, r: Table)
    requires Acyclic(g, rank, top) && Longest(g, rank, top, pred, path)
    requires Sound(t) && Numbered(t) && New(t, g.nodes) && Below(g, |t.orig|) && v in g.nodes && gpus >= 1
    requires StartsAt(g.edges, path, k) && Ends(g.edges, path, k, head, tail)
    ensures x == TaskExpanded(g, |t.orig|, path, gpus) && Originals(t, x.made) && r == U.CopiedAll(t, x.made)
    ensures FullFamily(r, v, if Duplicated(path, k, head, tail, v) then gpus else 1)
  {
    x := CopiesOf(g, |t.orig|, rank, top, pred, path, gpus, k, head, tail, v);
    r := FamilyOfNew(g, t, x.made, v, if Duplicated(path, k, head, tail, v) then gpus else 1);
  }
}
