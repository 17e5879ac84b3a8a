/** Expanding a task graph for several GPUs: a path of GPU tasks is found, cut behind its node with
    several inputs if it has one, extended at both ends, and then expanded for every further GPU. */
module TaskGraph {
  import opened G = Graph
  import opened Expand
  import opened NodeTable
  import opened PathSearch
  import U = UfoGraph

  /** The nodes of a path that have several inputs. */
  function Common(edges: seq<Edge>, path: seq<nat>): seq<nat> {
    if path == [] then []
    else
      var n := |path| - 1;
      Common(edges, path[..n]) + if |Predecessors(edges, path[n])| > 1 then [path[n]] else []
  }

  /** What is left of a path behind the first occurrence of `c`. */
  function Behind(path: seq<nat>, c: nat): seq<nat> {
    if path == [] then [] else if path[0] == c then path[1..] else Behind(path[1..], c)
  }

  function Pruned(edges: seq<Edge>, path: seq<nat>): seq<nat> {
    var common := Common(edges, path);
    if common == [] then path else Behind(path, common[0])
  }

  /** The path with the first predecessor of its head and the first successor of its tail. */
  function Extended(edges: seq<Edge>, inner: seq<nat>): seq<nat>
    requires inner != []
  {
    var before, after := Predecessors(edges, inner[0]), Successors(edges, inner[|inner| - 1]);
    (if before != [] then [before[0]] else []) + inner + (if after != [] then [after[0]] else [])
  }

  /** The path that is expanded; empty if nothing is. */
  function Target(edges: seq<Edge>, path: seq<nat>): seq<nat> {
    if |Common(edges, path)| > 1 || Pruned(edges, path) == [] then [] else Extended(edges, Pruned(edges, path))
  }

  /** The number of expansions: one for every GPU but the first. */
  function Extra(gpus: nat): nat {
    if gpus > 0 then gpus - 1 else 0
  }

  /** The task graph and the copies after expansion of `path` for `gpus` GPUs. */
  function TaskExpanded(g: Topology, first: nat, path: seq<nat>, gpus: nat): Growth {
    if Target(g.edges, path) == [] then Growth(g, [], 0)
    else ExpandTimes(g, first, Target(g.edges, path), Extra(gpus))
  }

  method NodesWithCommonAncestries(graph: U.UfoGraph, path: seq<nat>) returns (result: seq<nat>)
    ensures result == Common(graph.edges, path)
  {
    result := [];
    for i := 0 to |path|
      invariant result == Common(graph.edges, path[..i])
    {
      assert path[..i + 1][..i] == path[..i];
      var n := graph.GetNumPredecessors(path[i]);
      if n > 1 {
        result := result + [path[i]];
      }
    }
    assert path[..|path|] == path;
  }

  lemma {:induction false} CommonInPath(edges: seq<Edge>, path: seq<nat>, c: nat)
    ensures c in Common(edges, path) <==> c in path && |Predecessors(edges, c)| > 1
  {
    if path != [] {
      var n := |path| - 1;
      CommonInPath(edges, path[..n], c);
      assert path == path[..n] + [path[n]];
    }
  }

  /** Removes the links of a path up to the common node, and that one. */
  method Prune(path: seq<nat>, common: nat) returns (rest: seq<nat>)
    requires common in path
    ensures rest == Behind(path, common)
  {
    rest := path;
    while rest[0] != common
      invariant common in rest && Behind(rest, common) == Behind(path, common)
      decreases |rest|
    {
      rest := rest[1..];
    }
    rest := rest[1..];
  }

  lemma {:induction false} BehindInside(path: seq<nat>, c: nat)
    ensures exists k :: 0 <= k <= |path| && Behind(path, c) == path[k..]
  {
    if path == [] {
      assert Behind(path, c) == path[0..];
    } else if path[0] == c {
      assert Behind(path, c) == path[1..];
    } else {
      BehindInside(path[1..], c);
      var k :| 0 <= k <= |path[1..]| && Behind(path[1..], c) == path[1..][k..];
      assert path[1..][k..] == path[k + 1..];
    }
  }

  ghost predicate Known(s: seq<nat>, first: nat) {
    forall i :: 0 <= i < |s| ==> s[i] < first
  }

  lemma EdgeEndsBelow(g: Topology, first: nat, v: nat)
    requires Below(g, first)
    ensures Known(Predecessors(g.edges, v), first) && Known(Successors(g.edges, v), first)
  {
    forall i | 0 <= i < |Predecessors(g.edges, v)|
      ensures Predecessors(g.edges, v)[i] < first
    {
      var u := Predecessors(g.edges, v)[i];
      assert u in Predecessors(g.edges, v);
      PredecessorsHas(g.edges, v, u);
    }
    forall i | 0 <= i < |Successors(g.edges, v)|
      ensures Successors(g.edges, v)[i] < first
    {
      var u := Successors(g.edges, v)[i];
      assert u in Successors(g.edges, v);
      SuccessorsHas(g.edges, v, u);
    }
  }

  lemma ExtendedKnown(g: Topology, first: nat, inner: seq<nat>)
    requires inner != [] && Below(g, first) && Known(inner, first)
    ensures Known(Extended(g.edges, inner), first)
  {
    EdgeEndsBelow(g, first, inner[0]);
    EdgeEndsBelow(g, first, inner[|inner| - 1]);
  }

  /** Extends a path at both ends. */
  method Extend(graph: U.UfoGraph, inner: seq<nat>, ghost first: nat) returns (path: seq<nat>)
    requires inner != [] && Below(graph.Value(), first) && Known(inner, first)
    ensures path == Extended(graph.edges, inner) && Known(path, first)
  {
    var predecessors := graph.GetPredecessors(inner[0]);
    var successors := graph.GetSuccessors(inner[|inner| - 1]);
    ExtendedKnown(graph.Value(), first, inner);
    path := inner;
    if predecessors != [] {
      path := [predecessors[0]] + path;
    }
    if successors != [] {
      path := path + [successors[0]];
    }
  }

  /** The path to expand, from the path that was found. */
  method ChooseTarget(graph: U.UfoGraph, found: seq<nat>, ghost first: nat) returns (target: seq<nat>)
    requires Below(graph.Value(), first) && Known(found, first)
    ensures target == Target(graph.edges, found) && Known(target, first)
  {
    var common := NodesWithCommonAncestries(graph, found);
    if |common| > 1 {
      return [];
    }
    var path := found;
    if |common| == 1 {
      assert common[0] in common;
      CommonInPath(graph.edges, found, common[0]);
      path := Prune(found, common[0]);
      BehindInside(found, common[0]);
    }
    if path == [] {
      return [];
    }
    target := Extend(graph, path, first);
  }

  lemma CopiedAllAppend(t: Table, a: seq<nat>, b: seq<nat>)
    requires Sound(t) && Known(a, |t.orig|) && Known(b, |t.orig|)
    ensures U.CopiedAll(U.CopiedAll(t, a), b) == U.CopiedAll(t, a + b)
  {
    if b == [] {
      assert a + b == a;
    } else {
      var n := |b| - 1;
      CopiedAllAppend(t, a, b[..n]);
      assert (a + b)[..|a + b| - 1] == a + b[..n];
    }
  }

  /** What the first `k` expansions have done. */
  ghost predicate Rounded(g: Topology, t: Table, path: seq<nat>, k: nat, graph: Topology, table: Table) {
    && Sound(t) && graph == ExpandTimes(g, |t.orig|, path, k).graph
    && Known(ExpandTimes(g, |t.orig|, path, k).made, |t.orig|)
    && table == U.CopiedAll(t, ExpandTimes(g, |t.orig|, path, k).made)
  }

  /** One more expansion. */
  method ExpandOnce(graph: U.UfoGraph, path: seq<nat>, ghost g: Topology, ghost t: Table, ghost k: nat)
    requires graph.family.Valid() && Sound(t) && Known(path, |t.orig|)
    requires Rounded(g, t, path, k, graph.Value(), graph.family.Value())
    modifies graph, graph.family
    ensures graph.family.Valid() && Rounded(g, t, path, k + 1, graph.Value(), graph.family.Value())
  {
    ghost var x := ExpandTimes(g, |t.orig|, path, k);
    ghost var y := Expanded(graph.Value(), |graph.family.orig|, path);
    ghost var before := graph.copies;
    graph.Expand(path);
    MadeFromPath(x.graph, |t.orig| + |x.made|, path, |t.orig|);
    CopiedAllAppend(t, x.made, y.made);
  }

  lemma {:induction false} MadeFrom(first: nat, x: Growth, path: seq<nat>, i: nat, bound: nat)
    requires 1 <= i < |path| && Known(path, bound) && Known(x.made, bound)
    ensures Known(ExpandFrom(first, x, path, i).made, bound)
    decreases |path| - i
  {
    if i < |path| - 1 {
      MadeFrom(first, Advance(first, x, path, i), path, i + 1, bound);
    }
  }

  /** Only nodes of the path are copied. */
  lemma MadeFromPath(g: Topology, first: nat, path: seq<nat>, bound: nat)
    requires Known(path, bound)
    ensures Known(Expanded(g, first, path).made, bound)
  {
    if |path| >= 2 {
      MadeFrom(first, Growth(g, [], path[0]), path, 1, bound);
    }
  }

  /** Expands the chosen path for every GPU but the first. */
  method ExpandForGpus(graph: U.UfoGraph, path: seq<nat>, gpus: nat)
    requires graph.family.Valid() && Known(path, |graph.family.orig|)
    modifies graph, graph.family
    ensures graph.family.Valid()
    ensures Rounded(old(graph.Value()), old(graph.family.Value()), path, Extra(gpus),
                    graph.Value(), graph.family.Value())
  {
    ghost var g, t := graph.Value(), graph.family.Value();
    var i := 1;
    while i < gpus
      invariant 1 <= i && (if gpus > 0 then i <= gpus else i == 1) && graph.family.Valid()
      invariant Rounded(g, t, path, i - 1, graph.Value(), graph.family.Value())
      decreases gpus - i
    {
      ExpandOnce(graph, path, g, t, i - 1);
      i := i + 1;
    }
  }

  /** Expands a task graph for `gpus` GPUs. */
  method ExpandTaskGraph(graph: U.UfoGraph, usesGpu: nat -> bool, gpus: nat, ghost rank: nat -> nat, ghost top: nat)
    returns (ghost found: seq<nat>)
    requires Acyclic(graph.Value(), rank, top) && graph.family.Valid() && Below(graph.Value(), |graph.family.orig|)
    modifies graph, graph.family
    ensures Acyclic(old(graph.Value()), rank, top) && Longest(old(graph.Value()), rank, top, usesGpu, found)
    ensures graph.Value() == TaskExpanded(old(graph.Value()), old(|graph.family.orig|), found, gpus).graph
    ensures var made := TaskExpanded(old(graph.Value()), old(|graph.family.orig|), found, gpus).made;
            && graph.family.Valid() && Sound(old(graph.family.Value())) && Known(made, old(|graph.family.orig|))
            && graph.family.Value() == U.CopiedAll(old(graph.family.Value()), made)
  {
    var path := FindLongestPath(graph, usesGpu, rank, top);
    found := path;
    FoundKnown(graph.Value(), rank, top, usesGpu, path, |graph.family.orig|);
    var target := ChooseTarget(graph, path, |graph.family.orig|);
    if target != [] {
      ExpandForGpus(graph, target, gpus);
    }
  }

  lemma FoundKnown(g: Topology, rank: nat -> nat, top: nat, pred: nat -> bool, path: seq<nat>, first: nat)
    requires Acyclic(g, rank, top) && Longest(g, rank, top, pred, path) && Below(g, first)
    ensures Known(path, first)
  {
    if path != [] {
      FoundPath(g, rank, top, pred, path);
    }
  }
}
