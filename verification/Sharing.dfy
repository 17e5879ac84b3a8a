/** The graph after an expansion of any path of an acyclic graph, also when nodes between head and tail
    have several inputs and are shared. */
module Sharing {
  import opened Graph
  import opened Expand

  /** The first `i` nodes of the path behind its head that are copied: those with at most one input. */
  function Copied(edges: seq<Edge>, path: seq<nat>, i: nat): seq<nat>
    requires 1 <= i <= |path|
  {
    if i == 1 then []
    else Copied(edges, path, i - 1) + if |Predecessors(edges, path[i - 1])| <= 1 then [path[i - 1]] else []
  }

  /** The node of the new branch at position `j` of the path: head, tail and shared nodes themselves,
      and copies of the others, numbered in the order of the path. */
  function BranchAt(edges: seq<Edge>, first: nat, path: seq<nat>, j: nat): nat
    requires j < |path|
  {
    if 0 < j < |path| - 1 && |Predecessors(edges, path[j])| <= 1 then first + |Copied(edges, path, j)| else path[j]
  }

  /** The edge of the new branch that ends at position `j`, with the label of the path's own edge. */
  function EdgeAt(edges: seq<Edge>, first: nat, path: seq<nat>, j: nat): Edge
    requires 0 < j < |path|
  {
    Edge(BranchAt(edges, first, path, j - 1), BranchAt(edges, first, path, j), Label(edges, path[j - 1], path[j]))
  }

  /** `edges` are those of `orig`, and those of the new branch up to position `i`. */
  ghost predicate Branched(orig: seq<Edge>, first: nat, path: seq<nat>, i: nat, edges: seq<Edge>) {
    && 1 <= i <= |path| && |orig| <= |edges| && edges[..|orig|] == orig
    && (forall k {:trigger NewEdge(orig, first, path, i, edges, k)} :: |orig| <= k < |edges| ==> NewEdge(orig, first, path, i, edges, k))
    && forall j {:trigger Present(orig, first, path, edges, j)} :: 0 < j < i ==> Present(orig, first, path, edges, j)
  }

  /** Edge `k` is one of the new branch. */
  ghost predicate NewEdge(orig: seq<Edge>, first: nat, path: seq<nat>, i: nat, edges: seq<Edge>, k: int)
    requires 1 <= i <= |path|
  {
    0 <= k < |edges| && OnBranch(orig, first, path, i, edges[k])
  }

  ghost predicate Present(orig: seq<Edge>, first: nat, path: seq<nat>, edges: seq<Edge>, j: int) {
    0 < j < |path| && EdgeAt(orig, first, path, j) in edges
  }

  ghost predicate OnBranch(orig: seq<Edge>, first: nat, path: seq<nat>, i: nat, e: Edge)
    requires 1 <= i <= |path|
  {
    exists j :: 0 < j < i && e == EdgeAt(orig, first, path, j)
  }

  /** A path of an acyclic graph whose nodes are not fresh. */
  ghost predicate Ordered(g: Topology, first: nat, path: seq<nat>, rank: nat -> nat) {
    IsPath(g.edges, path) && Ranked(g.edges, rank) && forall k :: 0 <= k < |path| ==> path[k] < first
  }

  /** The expansion has got to position `i`. */
  ghost predicate Reached(g: Topology, first: nat, path: seq<nat>, i: nat, x: Growth) {
    && 1 <= i < |path| && Branched(g.edges, first, path, i, x.graph.edges)
    && x.made == Copied(g.edges, path, i) && x.current == BranchAt(g.edges, first, path, i - 1)
  }

  lemma OnLonger(orig: seq<Edge>, first: nat, path: seq<nat>, i: nat, e: Edge)
    requires 1 <= i < |path| && (OnBranch(orig, first, path, i, e) || e == EdgeAt(orig, first, path, i))
    ensures OnBranch(orig, first, path, i + 1, e)
  {
  }

  lemma Connects(g: Topology, s: nat, t: nat, lab: nat)
    ensures var edges := Connect(g, s, t, lab).edges;
            Edge(s, t, lab) in edges && (edges == g.edges || edges == g.edges + [Edge(s, t, lab)])
  {
    if Joined(g.edges, s, t) && Label(g.edges, s, t) == lab {
      var j := LabelFound(g.edges, [], s, t);
      assert g.edges[j] == Edge(s, t, lab);
    } else {
      assert Connect(g, s, t, lab).edges[|g.edges|] == Edge(s, t, lab);
    }
  }

  /** One more edge of the branch. */
  lemma BranchedMore(orig: seq<Edge>, first: nat, path: seq<nat>, i: nat, g: Topology, e: Edge)
    requires Branched(orig, first, path, i, g.edges) && i < |path| && e == EdgeAt(orig, first, path, i)
    ensures Branched(orig, first, path, i + 1, Connect(g, e.source, e.target, e.lab).edges)
  {
    Connects(g, e.source, e.target, e.lab);
    BranchedWith(orig, first, path, i, g.edges, e, Connect(g, e.source, e.target, e.lab).edges);
  }

  lemma NewEdgeWith(orig: seq<Edge>, first: nat, path: seq<nat>, i: nat, edges: seq<Edge>, e: Edge, edges': seq<Edge>, next: nat, k: int)
    requires Branched(orig, first, path, i, edges) && next == i + 1 <= |path| && e == EdgeAt(orig, first, path, i)
    requires (edges' == edges || edges' == edges + [e]) && |orig| <= k < |edges'|
    ensures NewEdge(orig, first, path, next, edges', k)
  {
    assert k < |edges| ==> NewEdge(orig, first, path, i, edges, k);
    OnLonger(orig, first, path, i, edges'[k]);
  }

  lemma PresentWith(orig: seq<Edge>, first: nat, path: seq<nat>, i: nat, edges: seq<Edge>, e: Edge, edges': seq<Edge>, j: int)
    requires Branched(orig, first, path, i, edges) && i < |path| && e == EdgeAt(orig, first, path, i)
    requires e in edges' && (edges' == edges || edges' == edges + [e]) && 0 < j <= i
    ensures Present(orig, first, path, edges', j)
  {
    assert j < i ==> Present(orig, first, path, edges, j);
  }

  lemma BranchedWith(orig: seq<Edge>, first: nat, path: seq<nat>, i: nat, edges: seq<Edge>, e: Edge, edges': seq<Edge>)
    requires Branched(orig, first, path, i, edges) && i < |path| && e == EdgeAt(orig, first, path, i)
    requires e in edges' && (edges' == edges || edges' == edges + [e])
    ensures Branched(orig, first, path, i + 1, edges')
  {
    var next := i + 1;
    assert edges'[..|orig|] == orig;
    forall k {:trigger NewEdge(orig, first, path, next, edges', k)} | |orig| <= k < |edges'|
      ensures NewEdge(orig, first, path, next, edges', k)
    {
      NewEdgeWith(orig, first, path, i, edges, e, edges', next, k);
    }
    forall j | 0 < j < next
      ensures Present(orig, first, path, edges', j)
    {
      PresentWith(orig, first, path, i, edges, e, edges', j);
    }
  }

  lemma BranchEnters(orig: seq<Edge>, first: nat, path: seq<nat>, i: nat, e: Edge, rank: nat -> nat)
    requires 1 <= i < |path| && OnBranch(orig, first, path, i, e)
    requires IsPath(orig, path) && Ranked(orig, rank) && path[i] < first
    ensures e.target != path[i]
  {
    var j :| 0 < j < i && e == EdgeAt(orig, first, path, j);
    RankGrows(orig, rank, path, j, i);
  }

  /** The branch so far does not enter the nodes ahead of it. */
  lemma InputsStay(g: Topology, first: nat, path: seq<nat>, i: nat, edges: seq<Edge>, rank: nat -> nat)
    requires Branched(g.edges, first, path, i, edges) && i < |path|
    requires IsPath(g.edges, path) && Ranked(g.edges, rank) && path[i] < first
    ensures Predecessors(edges, path[i]) == Predecessors(g.edges, path[i])
  {
    var more := edges[|g.edges|..];
    forall k | 0 <= k < |more|
      ensures more[k].target != path[i]
    {
      assert NewEdge(g.edges, first, path, i, edges, |g.edges| + k);
      BranchEnters(g.edges, first, path, i, edges[|g.edges| + k], rank);
    }
    PredecessorsNone(g.edges, more, path[i]);
    assert edges == g.edges + more;
  }

  lemma NextCopied(edges: seq<Edge>, first: nat, path: seq<nat>, i: nat)
    requires 1 <= i < |path| - 1
    ensures Copied(edges, path, i + 1) == Copied(edges, path, i) + if |Predecessors(edges, path[i])| <= 1 then [path[i]] else []
    ensures BranchAt(edges, first, path, i)
         == if |Predecessors(edges, path[i])| <= 1 then first + |Copied(edges, path, i)| else path[i]
  {
  }

  lemma AdvanceTo(first: nat, x: Growth, path: seq<nat>, i: nat, lab: nat, copied: bool, next: nat)
    requires 1 <= i < |path| && lab == Label(x.graph.edges, path[i - 1], path[i])
    requires copied == (|Predecessors(x.graph.edges, path[i])| <= 1) && next == if copied then first + |x.made| else path[i]
    ensures Advance(first, x, path, i)
         == Growth(Connect(x.graph, x.current, next, lab), x.made + if copied then [path[i]] else [], next)
  {
    assert x.made + [] == x.made;
  }

  lemma AdvanceReaches(g: Topology, first: nat, path: seq<nat>, i: nat, x: Growth, rank: nat -> nat, next: nat,
                       x': Growth)
    requires Reached(g, first, path, i, x) && next == i + 1 < |path| && x' == Advance(first, x, path, i)
    requires Ordered(g, first, path, rank)
    ensures Reached(g, first, path, next, x')
  {
    var lab := Label(g.edges, path[i - 1], path[i]);
    var copied := |Predecessors(g.edges, path[i])| <= 1;
    var node := BranchAt(g.edges, first, path, i);
    PathLabel(g.edges, x.graph.edges, path, i);
    InputsStay(g, first, path, i, x.graph.edges, rank);
    NextCopied(g.edges, first, path, i);
    AdvanceTo(first, x, path, i, lab, copied, node);
    BranchedMore(g.edges, first, path, i, x.graph, Edge(x.current, node, lab));
  }

  lemma CloseIs(x: Growth, path: seq<nat>, i: nat, e: Edge)
    requires i == |path| - 1 >= 1 && e == Edge(x.current, path[i], Label(x.graph.edges, path[i - 1], path[i]))
    ensures Close(x, path).graph == Connect(x.graph, e.source, e.target, e.lab) && Close(x, path).made == x.made
  {
  }

  lemma CloseBranches(g: Topology, first: nat, path: seq<nat>, i: nat, x: Growth)
    requires Reached(g, first, path, i, x) && i == |path| - 1 && IsPath(g.edges, path)
    ensures Branched(g.edges, first, path, |path|, Close(x, path).graph.edges) && Close(x, path).made == Copied(g.edges, path, i)
  {
    PathLabel(g.edges, x.graph.edges, path, i);
    CloseIs(x, path, i, EdgeAt(g.edges, first, path, i));
    BranchedMore(g.edges, first, path, i, x.graph, EdgeAt(g.edges, first, path, i));
  }

  /** Stage `j` of an expansion that began at position `i` follows on the stage before it. */
  ghost predicate Stepped(first: nat, path: seq<nat>, i: nat, stages: seq<Growth>, j: int) {
    0 < j < |stages| && 1 <= i + j - 1 < |path| && stages[j] == Advance(first, stages[j - 1], path, i + j - 1)
  }

  ghost predicate Stages(first: nat, path: seq<nat>, i: nat, stages: seq<Growth>) {
    forall j {:trigger Stepped(first, path, i, stages, j)} :: 0 < j < |stages| ==> Stepped(first, path, i, stages, j)
  }

  lemma StepBefore(first: nat, path: seq<nat>, i: nat, x: Growth, rest: seq<Growth>, next: nat)
    requires 1 <= i && next == i + 1 < |path| && rest != [] && rest[0] == Advance(first, x, path, i)
    requires Stages(first, path, next, rest)
    ensures Stages(first, path, i, [x] + rest)
  {
    var stages := [x] + rest;
    forall j | 0 < j < |stages|
      ensures Stepped(first, path, i, stages, j)
    {
      assert j > 1 ==> Stepped(first, path, next, rest, j - 1);
    }
  }

  /** The stages of an expansion. */
  lemma {:induction false} StagesOf(first: nat, x: Growth, path: seq<nat>, i: nat) returns (stages: seq<Growth>)
    requires 1 <= i < |path|
    ensures |stages| == |path| - i && stages[0] == x && Stages(first, path, i, stages)
    ensures ExpandFrom(first, x, path, i) == Close(stages[|stages| - 1], path)
    decreases |path| - i
  {
    if i == |path| - 1 {
      stages := [x];
    } else {
      var rest := StagesOf(first, Advance(first, x, path, i), path, i + 1);
      StepBefore(first, path, i, x, rest, i + 1);
      stages := [x] + rest;
    }
  }

  lemma ReachedFirst(g: Topology, first: nat, path: seq<nat>)
    requires |path| >= 2
    ensures Reached(g, first, path, 1, Growth(g, [], path[0]))
  {
  }

  lemma ReachedNext(g: Topology, first: nat, path: seq<nat>, i: nat, rank: nat -> nat, stages: seq<Growth>, next: nat)
    requires Ordered(g, first, path, rank) && 1 <= i < |stages| && next == i + 1 < |path|
    requires Stepped(first, path, 1, stages, i) && Reached(g, first, path, i, stages[i - 1])
    ensures Reached(g, first, path, next, stages[i])
  {
    AdvanceReaches(g, first, path, i, stages[i - 1], rank, next, stages[i]);
  }

  lemma {:induction false} ReachedAt(g: Topology, first: nat, path: seq<nat>, i: nat, rank: nat -> nat, stages: seq<Growth>)
    requires 1 <= i < |path| == |stages| + 1 && Ordered(g, first, path, rank)
    requires stages[0] == Growth(g, [], path[0]) && Stages(first, path, 1, stages)
    ensures Reached(g, first, path, i, stages[i - 1])
  {
    if i == 1 {
      ReachedFirst(g, first, path);
    } else {
      ReachedAt(g, first, path, i - 1, rank, stages);
      ReachedNext(g, first, path, i - 1, rank, stages, i);
    }
  }

  /** Expanding any path of an acyclic graph adds exactly the edges of the new branch, each with the
      label of the path's edge, and copies exactly the nodes between head and tail that have at most
      one input, in the order of the path. */
  lemma ExpandedBranch(g: Topology, first: nat, path: seq<nat>, rank: nat -> nat)
    requires |path| >= 2 && Ordered(g, first, path, rank)
    ensures var y := Expanded(g, first, path);
            && Branched(g.edges, first, path, |path|, y.graph.edges)
            && y.made == Copied(g.edges, path, |path| - 1)
  {
    var last := |path| - 1;
    var stages := StagesOf(first, Growth(g, [], path[0]), path, 1);
    ReachedAt(g, first, path, last, rank, stages);
    CloseBranches(g, first, path, last, stages[last - 1]);
  }

  /** Every node of the path is copied at most once, and exactly if it lies between head and tail and has
      at most one input. */
  lemma {:induction false} CopiedAre(edges: seq<Edge>, path: seq<nat>, i: nat, v: nat)
    requires 1 <= i <= |path|
    ensures v in Copied(edges, path, i) <==> v in path[1..i] && |Predecessors(edges, v)| <= 1
  {
    if i > 1 {
      var last := path[i - 1];
      CopiedAre(edges, path, i - 1, v);
      OneLonger(path[1..i - 1], last, v);
      OneLonger(Copied(edges, path, i - 1), last, v);
      assert path[1..i] == path[1..i - 1] + [last];
    } else {
      assert path[1..1] == [];
    }
  }

  lemma OneLonger(s: seq<nat>, last: nat, v: nat)
    ensures v in s + [last] <==> v in s || v == last
  {
  }

  // The nodes.

  /** `x` has the nodes of `g` and the copies so far. */
  ghost predicate Noded(g: Topology, first: nat, x: Growth) {
    && Below(x.graph, first + |x.made|) && x.graph.nodes == g.nodes + BranchNodes(first, |x.made|)
    && x.current in x.graph.nodes
  }

  lemma NoEdgeYet(g: Topology, s: nat, t: nat)
    requires Below(g, t)
    ensures !Joined(g.edges, s, t) && t !in g.nodes
  {
  }

  lemma OneMoreNode(g: Topology, first: nat, n: nat)
    ensures (g.nodes + BranchNodes(first, n)) + [first + n] == g.nodes + BranchNodes(first, n + 1)
  {
  }

  lemma AdvanceNodes(g: Topology, first: nat, path: seq<nat>, i: nat, x: Growth)
    requires Noded(g, first, x) && 1 <= i < |path| && path[i] in g.nodes && Below(g, first)
    ensures Noded(g, first, Advance(first, x, path, i))
  {
    var lab := Label(x.graph.edges, path[i - 1], path[i]);
    var n := first + |x.made|;
    if |Predecessors(x.graph.edges, path[i])| <= 1 {
      NoEdgeYet(x.graph, x.current, n);
      BelowConnect(x.graph, n, n + 1, x.current, n, lab);
      OneMoreNode(g, first, |x.made|);
    } else {
      BelowConnect(x.graph, n, n, x.current, path[i], lab);
    }
  }

  lemma {:induction false} ExpandFromNodes(g: Topology, first: nat, path: seq<nat>, i: nat, x: Growth)
    requires Noded(g, first, x) && 1 <= i < |path| && Below(g, first) && forall k :: 0 <= k < |path| ==> path[k] in g.nodes
    ensures var y := ExpandFrom(first, x, path, i); y.graph.nodes == g.nodes + BranchNodes(first, |y.made|)
    decreases |path| - i
  {
    if i < |path| - 1 {
      AdvanceNodes(g, first, path, i, x);
      ExpandFromNodes(g, first, path, i + 1, Advance(first, x, path, i));
    } else {
      assert path[i] in x.graph.nodes;
    }
  }

  /** The nodes of the expanded graph are the old ones and the copies. */
  lemma ExpandedNodes(g: Topology, first: nat, path: seq<nat>)
    requires |path| >= 2 && Below(g, first) && forall k :: 0 <= k < |path| ==> path[k] in g.nodes
    ensures var y := Expanded(g, first, path); y.graph.nodes == g.nodes + BranchNodes(first, |y.made|)
  {
    assert g.nodes + BranchNodes(first, 0) == g.nodes;
    ExpandFromNodes(g, first, path, 1, Growth(g, [], path[0]));
  }
}
